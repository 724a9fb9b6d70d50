/** From a submitted request to an issued claim: the gate admits it, authority is resolved for it, and a fresh
    Pending snapshot is issued. Digests and encodings are arbitrary functions. */
module Issuance {
  import opened Evidence
  import opened Numbering
  import opened ClientAuthority
  import opened Resolver
  import opened Session
  import opened Producer

  // ---------------------------------------------------------------- payloads

  /** Every part after its length, so that no two lists of parts have one payload. */
  function Payload(parts: seq<string>): string {
    if parts == [] then "" else Decimal(|parts[0]|) + ":" + parts[0] + Payload(parts[1..])
  }

  method BuildPayload(parts: seq<string>) returns (payload: string)
    ensures payload == Payload(parts)
  {
    payload := "";
    for i := 0 to |parts|
      invariant payload + Payload(parts[i..]) == Payload(parts)
    {
      ghost var before := payload;
      payload := payload + Decimal(|parts[i]|) + ":" + parts[i];
      assert parts[i..][0] == parts[i] && parts[i..][1..] == parts[i + 1..];
      assert before + Payload(parts[i..]) == payload + Payload(parts[i + 1..]);
    }
  }

  lemma PrefixDecodes(m: nat, n: nat, u: string, v: string)
    requires Decimal(m) + ":" + u == Decimal(n) + ":" + v
    ensures m == n && u == v
  {
    hide Decimal;
    var p, q := Decimal(m), Decimal(n);
    var whole := p + ":" + u;
    assert whole[|p|] == ':' && whole[|q|] == ':';
    assert forall i | 0 <= i < |p| :: whole[i] == p[i] && p[i] in DIGITS;
    assert forall i | 0 <= i < |q| :: whole[i] == q[i] && q[i] in DIGITS;
    assert ':' !in DIGITS;
    assert p == whole[..|p|] && q == whole[..|q|];
    DecimalInjective(m, n);
    assert u == whole[|p| + 1..] && v == whole[|q| + 1..];
  }

  /** Different lists of parts have different payloads. */
  lemma {:induction false} PayloadInjective(a: seq<string>, b: seq<string>)
    requires Payload(a) == Payload(b)
    ensures a == b
    decreases |a|
  {
    if a != [] && b != [] {
      var u, v := a[0] + Payload(a[1..]), b[0] + Payload(b[1..]);
      assert Payload(a) == Decimal(|a[0]|) + ":" + u && Payload(b) == Decimal(|b[0]|) + ":" + v;
      PrefixDecodes(|a[0]|, |b[0]|, u, v);
      assert a[0] == u[..|a[0]|] && b[0] == v[..|b[0]|];
      assert Payload(a[1..]) == u[|a[0]|..] && Payload(b[1..]) == v[|b[0]|..];
      PayloadInjective(a[1..], b[1..]);
      assert a == [a[0]] + a[1..] && b == [b[0]] + b[1..];
    }
  }

  ghost predicate SameLength(digest: string -> string) { forall s, t :: |digest(s)| == |digest(t)| }

  /** The digest tells these two payloads apart. */
  predicate Apart(digest: string -> string, a: string, b: string) { a != b ==> digest(a) != digest(b) }

  lemma SuffixDecodes(p: string, q: string, u: string, v: string)
    requires p + u == q + v && |u| == |v|
    ensures p == q && u == v
  {
    assert (p + u)[|p|..] == u && (q + v)[|q|..] == v && (p + u)[..|p|] == p && (q + v)[..|q|] == q;
  }

  // ---------------------------------------------------------------- the gate

  /** The trusted context of an admission. */
  datatype Asked = Asked(requestRef: string, principal: Principal, action: Action)

  /** What an evaluator answers about one context; `complete` stands for the size limits of a policy's answer. */
  datatype Evaluation = Evaluation(asked: Asked, decision: Decision, caps: Caps, complete: bool)

  datatype Admission = Admission(evaluation: Evaluation)

  function PartsOf(asked: Asked, d: Decision, name: string, result: string): seq<string> {
    [asked.requestRef, asked.principal.subject, asked.principal.team, asked.principal.context, name, asked.action.project, asked.action.templateRef,
     d.policyRef.id, d.policyRef.version, result, d.reason]
  }

  function DecisionID(digest: string -> string, asked: Asked, d: Decision, name: string, result: string): string {
    "decision:" + asked.requestRef + ":authorization:" + digest(Payload(PartsOf(asked, d, name, result)))
  }

  /** Two decisions share an identity only if they say the same about the same context. */
  lemma DecisionIDBinds(digest: string -> string, a: Asked, d: Decision, b: Asked, e: Decision, n: string, m: string, r: string, s: string)
    requires SameLength(digest) && Apart(digest, Payload(PartsOf(a, d, n, r)), Payload(PartsOf(b, e, m, s)))
    requires DecisionID(digest, a, d, n, r) == DecisionID(digest, b, e, m, s)
    ensures a.requestRef == b.requestRef && a.principal == b.principal && a.action.project == b.action.project && a.action.templateRef == b.action.templateRef
    ensures n == m && r == s && d.policyRef == e.policyRef && d.reason == e.reason
  {
    hide Payload;
    var p, q := PartsOf(a, d, n, r), PartsOf(b, e, m, s);
    SuffixDecodes("decision:" + a.requestRef + ":authorization:", "decision:" + b.requestRef + ":authorization:", digest(Payload(p)), digest(Payload(q)));
    PayloadInjective(p, q);
    assert p[0] == q[0] && p[1] == q[1] && p[2] == q[2] && p[3] == q[3] && p[4] == q[4] && p[5] == q[5];
    assert p[6] == q[6] && p[7] == q[7] && p[8] == q[8] && p[9] == q[9] && p[10] == q[10];
  }

  predicate ValidAsked(a: Asked) {
    !Blank(a.requestRef) && !Blank(a.principal.subject) && !Blank(a.principal.team) && !Blank(a.principal.context) &&
    !Blank(a.action.project) && !Blank(a.action.templateRef) && a.action.name.ClaimCreate?
  }

  predicate ValidDecision(a: Asked, d: Decision) {
    !Blank(d.id) && d.principalRef == a.principal.subject && d.action == a.action.name && ValidResult(d.result) &&
    (Blank(d.policyRef.id) <==> Blank(d.policyRef.version)) && (d.result.Allow? ==> !Blank(d.policyRef.id)) && !Blank(d.reason)
  }

  /** Bounds a policy may state. */
  predicate ValidCaps(caps: Caps) {
    (caps.tools.Some? ==> ValidRequestList(caps.tools.value)) && (caps.resources.Some? ==> ValidRequestList(caps.resources.value)) &&
    (caps.memory.Some? ==> ValidRequestList(caps.memory.value)) && (caps.models.Some? ==> ValidRequestList(caps.models.value)) &&
    (caps.runtimes.Some? ==> ValidRequestList(caps.runtimes.value)) && (caps.network.Some? ==> ValidNetworkProfiles(caps.network.value)) &&
    (caps.maxTimeout.Some? ==> caps.maxTimeout.value > 0) && (caps.maxCalls.Some? ==> 1 <= caps.maxCalls.value <= 1000)
  }

  predicate Evaluates(a: Asked, e: Evaluation) { e.asked == a && ValidDecision(a, e.decision) && e.complete && ValidCaps(e.caps) }

  /** An admission of exactly this context. */
  predicate Admits(a: Asked, admission: Admission) {
    ValidAsked(a) && Evaluates(a, admission.evaluation) && admission.evaluation.decision.result.Allow?
  }

  /** Asks once about a valid context and returns the decision that was answered, whatever it is worth; it failed unless the answer
      is a complete one about exactly this context, and work goes on only when that answer allows it. */
  method Admit(asked: Asked, answer: Option<Evaluation>) returns (decision: Option<Decision>, admission: Option<Admission>, failed: bool)
    ensures decision == if ValidAsked(asked) && answer.Some? then Some(answer.value.decision) else None
    ensures failed <==> !(ValidAsked(asked) && answer.Some? && Evaluates(asked, answer.value))
    ensures !failed ==> answer.value.asked == asked && answer.value.complete && ValidResult(decision.value.result) && !Blank(decision.value.id) &&
                        decision.value.principalRef == asked.principal.subject && decision.value.action == asked.action.name
    ensures admission == if !failed && decision.value.result.Allow? then Some(Admission(answer.value)) else None
    ensures admission.Some? <==> answer.Some? && Admits(asked, Admission(answer.value))
  {
    hide Blank, ValidCaps;
    if !ValidAsked(asked) { return None, None, true; }
    if !answer.Some? { return None, None, true; }
    decision, admission, failed := Some(answer.value.decision), None, true;
    if answer.value.asked != asked || !ValidDecision(asked, answer.value.decision) { return; }
    if !answer.value.complete || !ValidCaps(answer.value.caps) { return; }
    failed := false;
    if !answer.value.decision.result.Allow? { return; }
    admission := Some(Admission(answer.value));
  }

  // ---------------------------------------------------------------- issuing

  /** What the issuance digest covers. */
  datatype Item = RequestItem(request: Request) | PrincipalItem(principal: Principal) | ActionItem(action: Action)
                | DecisionItem(decision: Decision) | AuthorityItem(authority: Authority)

  function ItemsOf(request: Request, principal: Principal, decision: Decision, granted: Authority): seq<Item> {
    [RequestItem(request), PrincipalItem(principal), ActionItem(ActionOf(request)), DecisionItem(decision), AuthorityItem(granted)]
  }

  function ActionOf(request: Request): Action { Action(ClaimCreate, request.projectRef, request.templateRef) }

  function AskedFor(request: Request, principal: Principal): Asked { Asked(request.name, principal, ActionOf(request)) }

  function Mark(digest: string -> string, json: Item -> string, items: seq<Item>): string {
    digest(Payload(seq(|items|, i requires 0 <= i < |items| => json(items[i]))))
  }

  function ClaimID(name: string, mark: string): string { "claim:" + name + ":issuance:" + mark }
  function AuthorityID(name: string, mark: string): string { "authority:" + name + ":issuance:" + mark }

  /** The admission was made for this request, project and template. */
  predicate MatchesRequest(admission: Admission, request: Request) {
    admission.evaluation.decision.result.Allow? && admission.evaluation.asked.requestRef == request.name &&
    admission.evaluation.asked.action == ActionOf(request)
  }

  /** Authority resolved for one full request. */
  datatype Resolution = Resolution(request: Request, granted: Authority, changes: seq<Change>)

  predicate NoneBlank(values: seq<string>) { forall i | 0 <= i < |values| :: !Blank(values[i]) }

  predicate Issuable(request: Request, principal: Principal, decision: Decision, resolution: Resolution, admission: Admission) {
    ValidClaimRequest(request) && admission.evaluation.asked == AskedFor(request, principal) && admission.evaluation.decision == decision &&
    decision.result.Allow? && resolution.request == request && resolution.granted.id == "" &&
    !Blank(resolution.granted.runtime.profileRef) && resolution.granted.runtime.timeout > 0 &&
    NoneBlank(resolution.granted.tools) && NoneBlank(resolution.granted.resources) && NoneBlank(resolution.granted.memory) && NoneBlank(resolution.granted.network)
  }

  /** The fresh Pending snapshot of a grant. */
  function Snapshot(request: Request, principal: Principal, decision: Decision, granted: Authority, mark: string): State {
    State(request.name, principal, ActionOf(request), decision.policyRef, Some(granted.(id := AuthorityID(request.name, mark))),
          Some(Claim(ClaimID(request.name, mark), request.name, request.templateRef, AuthorityID(request.name, mark), Phase.Pending, None)),
          decision, Trail(request.name, ClaimID(request.name, mark), [decision.id], []))
  }

  /** Issues a snapshot for an admitted request and the authority resolved for it. */
  method Issue(request: Request, principal: Principal, decision: Decision, resolution: Resolution, admission: Admission,
               digest: string -> string, json: Item -> string) returns (issued: Option<State>)
    ensures var mark := Mark(digest, json, ItemsOf(request, principal, decision, resolution.granted));
            var snapshot := Snapshot(request, principal, decision, resolution.granted, mark);
            issued == if Issuable(request, principal, decision, resolution, admission) && ValidIssuedState(snapshot) then Some(snapshot) else None
  {
    hide ValidIssuedState, ValidClaimRequest, NoneBlank, Blank, Payload;
    if !ValidClaimRequest(request) { return None; }
    if admission.evaluation.asked != AskedFor(request, principal) || admission.evaluation.decision != decision || !decision.result.Allow? { return None; }
    if resolution.request != request { return None; }
    var granted := resolution.granted;
    if granted.id != "" || Blank(granted.runtime.profileRef) || granted.runtime.timeout <= 0 { return None; }
    if !NoneBlank(granted.tools) || !NoneBlank(granted.resources) || !NoneBlank(granted.memory) || !NoneBlank(granted.network) { return None; }
    var items := ItemsOf(request, principal, decision, granted);
    var payload := BuildPayload(seq(|items|, i requires 0 <= i < |items| => json(items[i])));
    var mark := digest(payload);
    var snapshot := Snapshot(request, principal, decision, granted, mark);
    if !ValidIssuedState(snapshot) { return None; }
    issued := Some(snapshot);
  }

  /** The encoding tells any two items of these lists apart. */
  predicate Encodes(json: Item -> string, a: seq<Item>, b: seq<Item>) {
    |a| == |b| && forall i | 0 <= i < |a| :: json(a[i]) == json(b[i]) ==> a[i] == b[i]
  }

  /** Two claims share an identity only if they were issued for the same request, principal, decision and grant. */
  lemma ClaimIDBinds(digest: string -> string, json: Item -> string, r: Request, p: Principal, d: Decision, g: Authority,
                     r': Request, p': Principal, d': Decision, g': Authority)
    requires SameLength(digest) && Encodes(json, ItemsOf(r, p, d, g), ItemsOf(r', p', d', g'))
    requires var a, b := ItemsOf(r, p, d, g), ItemsOf(r', p', d', g');
             Apart(digest, Payload(seq(|a|, i requires 0 <= i < |a| => json(a[i]))), Payload(seq(|b|, i requires 0 <= i < |b| => json(b[i]))))
    requires ClaimID(r.name, Mark(digest, json, ItemsOf(r, p, d, g))) == ClaimID(r'.name, Mark(digest, json, ItemsOf(r', p', d', g')))
    ensures r == r' && p == p' && d == d' && g == g'
  {
    hide Payload;
    var a, b := ItemsOf(r, p, d, g), ItemsOf(r', p', d', g');
    var s, t := seq(|a|, i requires 0 <= i < |a| => json(a[i])), seq(|b|, i requires 0 <= i < |b| => json(b[i]));
    SuffixDecodes("claim:" + r.name + ":issuance:", "claim:" + r'.name + ":issuance:", digest(Payload(s)), digest(Payload(t)));
    PayloadInjective(s, t);
    forall i | 0 <= i < |a| ensures a[i] == b[i] { assert s[i] == json(a[i]) && t[i] == json(b[i]); }
    assert a[0] == b[0] && a[1] == b[1] && a[3] == b[3] && a[4] == b[4];
  }

  // ---------------------------------------------------------------- what is resolved can be issued

  /** Under bounds that templates and policies may state, the recorded number of calls decodes to the intended one. */
  lemma ValidCallsDecode(request: Request, template: Template, caps: Caps)
    requires Grantable(request, template, caps, true) && ValidCaps(caps)
    ensures var g := GrantOf(request, template.ceiling, caps);
            ModelCallLimit(g.runtime.maxModelCalls) == Calls(request, template.ceiling, caps) && 0 <= g.runtime.maxModelCalls <= 1000 &&
            g.runtime.timeout > 0
  {
  }

  lemma GrantedNoneBlank(request: Request, template: Template, caps: Caps)
    requires Grantable(request, template, caps, true)
    ensures var g := GrantOf(request, template.ceiling, caps);
            NoneBlank(g.tools) && NoneBlank(g.resources) && NoneBlank(g.memory) && NoneBlank(g.network)
  {
    hide Blank, GrantOf, Allows, InOrder, Distinct, ScopesFit, CapsRequested;
    GrantIsExactMeet(request, template, caps);
    var g, a := GrantOf(request, template.ceiling, caps), request.access;
    forall i | 0 <= i < |g.tools| ensures !Blank(g.tools[i]) { assert g.tools[i] in a.tools; }
    forall i | 0 <= i < |g.resources| ensures !Blank(g.resources[i]) { assert g.resources[i] in a.resources; }
    forall i | 0 <= i < |g.memory| ensures !Blank(g.memory[i]) { assert g.memory[i] in a.memory; }
    PublicWebIsNotBlank();
  }

  lemma PublicWebIsNotBlank()
    ensures !Blank(PUBLIC_WEB)
  {
    assert !IsSpace(PUBLIC_WEB[0]);
  }

  lemma IDsNotBlank(name: string, mark: string)
    ensures !Blank(ClaimID(name, mark)) && !Blank(AuthorityID(name, mark))
  {
    assert !IsSpace(ClaimID(name, mark)[0]) && !IsSpace(AuthorityID(name, mark)[0]);
  }

  lemma SnapshotValid(request: Request, principal: Principal, template: Template, admission: Admission, mark: string)
    requires Admits(AskedFor(request, principal), admission) && Grantable(request, template, admission.evaluation.caps, true)
    ensures ValidIssuedState(Snapshot(request, principal, admission.evaluation.decision, GrantOf(request, template.ceiling, admission.evaluation.caps), mark))
  {
    hide Blank, GrantOf, Kept, ClaimID, AuthorityID;
    IDsNotBlank(request.name, mark);
    ValidCallsDecode(request, template, admission.evaluation.caps);
    GrantScalars(request, template.ceiling, admission.evaluation.caps);
  }

  /** Whatever the gate admits and the resolver grants is issued, and what is issued is work that a run and the
      client agree on: its facts and snapshots are those the acceptance results speak about. */
  lemma GrantedIsIssued(request: Request, principal: Principal, template: Template, admission: Admission, mark: string)
    requires Admits(AskedFor(request, principal), admission) && Grantable(request, template, admission.evaluation.caps, true)
    ensures var caps, decision := admission.evaluation.caps, admission.evaluation.decision;
            var granted := GrantOf(request, template.ceiling, caps);
            Issuable(request, principal, decision, Resolution(request, granted, ChangesOf(request, granted, caps)), admission) &&
            AdmittedWork(Assignment(request, Snapshot(request, principal, decision, granted, mark), ChangesOf(request, granted, caps)))
  {
    hide Blank, GrantOf, Kept, ClaimID, AuthorityID, ChangesOf, ValidIssuedState, ExpectedGaps, NoneBlank;
    var caps := admission.evaluation.caps;
    var granted := GrantOf(request, template.ceiling, caps);
    GrantedNoneBlank(request, template, caps);
    ValidCallsDecode(request, template, caps);
    GrantScalars(request, template.ceiling, caps);
    GrantHasNoID(request, template, caps);
    SnapshotValid(request, principal, template, admission, mark);
    ClientAgrees(request, template, caps);
    ClientAgreesOnIssued(request, granted, AuthorityID(request.name, mark), ChangesOf(request, granted, caps));
  }

  lemma GrantHasNoID(request: Request, template: Template, caps: Caps)
    requires Grantable(request, template, caps, true)
    ensures GrantOf(request, template.ceiling, caps).id == ""
  {
  }

  /** Assigning an identity changes nothing the client compares. */
  lemma ClientAgreesOnIssued(request: Request, granted: Authority, id: string, changes: seq<Change>)
    requires AuthorityWithinRequest(granted, request) && ValidAuthorityChanges(request, granted, changes)
    ensures AuthorityWithinRequest(granted.(id := id), request) && ValidAuthorityChanges(request, granted.(id := id), changes)
  {
    assert ExpectedGaps(request, granted.(id := id)) == ExpectedGaps(request, granted);
  }

  lemma AdmissionMatches(request: Request, principal: Principal, admission: Admission)
    requires Admits(AskedFor(request, principal), admission)
    ensures MatchesRequest(admission, request)
  {
  }

  // ---------------------------------------------------------------- preparing an assignment

  /** What a request comes to before anything runs. A request that needs approval is given no state. */
  datatype Prepared = Invalid | Ready(work: Assignment) | Refused(state: State) | Waiting(decision: Decision)

  /** The state of a request that was decided without anything being issued. */
  function Unissued(request: Request, principal: Principal, decision: Decision): State {
    State(request.name, principal, ActionOf(request), decision.policyRef, None, None, decision, Trail(request.name, "", [decision.id], []))
  }

  /** A decided request has a valid state without a claim exactly when a policy decided it. */
  lemma UnissuedIsValid(request: Request, principal: Principal, e: Evaluation)
    requires ValidAsked(AskedFor(request, principal)) && Evaluates(AskedFor(request, principal), e) && !e.decision.result.Allow?
    ensures ValidIssuedState(Unissued(request, principal, e.decision)) <==> !Blank(e.decision.policyRef.id)
  {
    hide Blank, ValidCaps;
  }

  /** Admits, resolves and issues. A request that the gate admits is issued exactly when it can be granted; one that a policy
      denies gets a state without a claim; one that needs approval gets only its decision. */
  method Prepare(request: Request, principal: Principal, template: Template, answer: Option<Evaluation>, digest: string -> string, json: Item -> string)
    returns (prepared: Prepared)
    ensures prepared.Ready? <==> answer.Some? && Admits(AskedFor(request, principal), Admission(answer.value)) &&
                                 Grantable(request, template, answer.value.caps, true)
    ensures prepared.Ready? ==> AdmittedWork(prepared.work) && prepared.work.request == request && prepared.work.issued.decision == answer.value.decision &&
                                prepared.work.issued.principal == principal
    ensures prepared.Ready? ==> prepared.work.issued.authority.value.(id := "") == GrantOf(request, template.ceiling, answer.value.caps)
    ensures prepared.Ready? ==>
              var st := prepared.work.issued;
              var claim := st.claim.value;
              st.requestRef == request.name && st.policyRef == answer.value.decision.policyRef && claim.requestRef == request.name &&
              claim.templateRef == request.templateRef && claim.authorityRef == st.authority.value.id && claim.phase.Pending? && claim.identity.None? &&
              st.evidence == Trail(request.name, claim.id, [answer.value.decision.id], [])
    ensures var asked := AskedFor(request, principal);
            var decided := ValidClaimRequest(request) && ValidAsked(asked) && answer.Some? && Evaluates(asked, answer.value);
            (prepared.Refused? <==> decided && answer.value.decision.result.Deny? && !Blank(answer.value.decision.policyRef.id)) &&
            (prepared.Waiting? <==> decided && answer.value.decision.result.ApprovalRequired?)
    ensures prepared.Refused? ==> prepared.state == Unissued(request, principal, answer.value.decision)
    ensures prepared.Waiting? ==> prepared.decision == answer.value.decision
  {
    hide Blank, GrantOf, Grantable, ChangesOf, ValidIssuedState, AdmittedWork, Issuable, Mark, ValidClaimRequest, Evaluates, ValidAsked;
    GrantableIsValid(request, template, answer);
    if !ValidClaimRequest(request) { return Invalid; }
    var decision, admission, failed := Admit(AskedFor(request, principal), answer);
    if failed { return Invalid; }
    if admission.Some? {
      var resolved := ResolveForIssuance(request, template, answer.value.caps, MatchesRequest(admission.value, request));
      AdmissionMatches(request, principal, admission.value);
      if !resolved.Some? { return Invalid; }
      var granted, changes := resolved.value.0, resolved.value.1;
      ghost var mark := Mark(digest, json, ItemsOf(request, principal, decision.value, granted));
      GrantedIsIssued(request, principal, template, admission.value, mark);
      SnapshotValid(request, principal, template, admission.value, mark);
      var issued := Issue(request, principal, decision.value, Resolution(request, granted, changes), admission.value, digest, json);
      GrantHasNoID(request, template, answer.value.caps);
      return Ready(Assignment(request, issued.value, changes));
    }
    if !decision.value.result.Deny? { return Waiting(decision.value); }
    var state := Unissued(request, principal, decision.value);
    UnissuedIsValid(request, principal, answer.value);
    prepared := if ValidIssuedState(state) then Refused(state) else Invalid;
  }

  lemma GrantableIsValid(request: Request, template: Template, answer: Option<Evaluation>)
    ensures answer.Some? && Grantable(request, template, answer.value.caps, true) ==> ValidClaimRequest(request)
  {
  }
}
