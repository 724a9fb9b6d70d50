/** Authority resolution: what is granted of a request under a template ceiling and a policy's caps, and the
    differences recorded for it. */
module Resolver {
  import opened Evidence
  import opened ClientAuthority

  datatype Ceiling = Ceiling(tools: seq<string>, resources: seq<string>, memory: seq<string>, network: seq<string>, models: seq<string>,
                             runtimes: seq<string>, maxTimeout: Option<int>, maxCalls: Option<int>)

  /** `envelopeValid` stands for the checks on a template's artifact, entrypoint and metadata. */
  datatype Template = Template(name: string, envelopeValid: bool, ceiling: Ceiling)

  /** A policy's constraints; an absent list constrains nothing, except that network profiles need one. */
  datatype Caps = Caps(tools: Option<seq<string>>, resources: Option<seq<string>>, memory: Option<seq<string>>, network: Option<seq<string>>,
                       models: Option<seq<string>>, runtimes: Option<seq<string>>, maxTimeout: Option<int>, maxCalls: Option<int>)

  predicate ValidTemplate(t: Template) {
    t.envelopeValid && ValidRequestList(t.ceiling.tools) && ValidRequestList(t.ceiling.resources) && ValidRequestList(t.ceiling.models) &&
    ValidRequestList(t.ceiling.memory) && ValidRequestList(t.ceiling.runtimes) && ValidNetworkProfiles(t.ceiling.network) &&
    (t.ceiling.maxCalls.Some? ==> 1 <= t.ceiling.maxCalls.value <= 1000)
  }

  // ---------------------------------------------------------------- lists

  /** What a list is measured against: the listed values, or scopes that may end in a wildcard. */
  datatype Limit = Exact(values: seq<string>) | Scopes(ceilings: seq<string>)

  predicate Covers(ceiling: string, scope: string) {
    ceiling == scope || (ceiling != "" && ceiling[|ceiling| - 1] == '*' && ceiling[..|ceiling| - 1] <= scope)
  }

  predicate Allows(limit: Limit, value: string) {
    match limit
    case Exact(values) => value in values
    case Scopes(ceilings) => exists i | 0 <= i < |ceilings| :: Covers(ceilings[i], value)
  }

  /** The allowed values of a list in their order, each once. */
  function Kept(requested: seq<string>, limit: Limit): seq<string> {
    if requested == [] then [] else
    var before, value := Kept(requested[..|requested| - 1], limit), requested[|requested| - 1];
    if Allows(limit, value) && value !in before then before + [value] else before
  }

  function FirstIndex(list: seq<string>, value: string): nat {
    if list == [] then 0 else if list[0] == value then 0 else 1 + FirstIndex(list[1..], value)
  }

  predicate Distinct(list: seq<string>) { forall i, j | 0 <= i < j < |list| :: list[i] != list[j] }

  /** The values of `part` stand in the order in which `whole` first lists them. */
  predicate InOrder(part: seq<string>, whole: seq<string>) {
    forall i, j | 0 <= i < j < |part| :: FirstIndex(whole, part[i]) < FirstIndex(whole, part[j])
  }

  lemma {:induction false} FirstIndexOfPrefix(list: seq<string>, last: string, value: string)
    ensures value in list ==> FirstIndex(list + [last], value) == FirstIndex(list, value) < |list|
    ensures value !in list ==> FirstIndex(list, value) == |list| && FirstIndex(list + [value], value) == |list|
  {
    if list != [] {
      assert (list + [last])[1..] == list[1..] + [last] && (list + [value])[1..] == list[1..] + [value];
      FirstIndexOfPrefix(list[1..], last, value);
    }
  }

  /** Nothing more and nothing less than the allowed values is kept, without duplicates and in order. */
  lemma {:induction false} KeptExactly(requested: seq<string>, limit: Limit)
    ensures forall v :: v in Kept(requested, limit) <==> v in requested && Allows(limit, v)
    ensures Distinct(Kept(requested, limit)) && InOrder(Kept(requested, limit), requested)
  {
    hide Allows, FirstIndex;
    if requested != [] {
      var n := |requested| - 1;
      var before, last := requested[..n], requested[n];
      assert requested == before + [last];
      KeptExactly(before, limit);
      var part, all := Kept(before, limit), Kept(requested, limit);
      forall v ensures v in all <==> v in requested && Allows(limit, v) {
        assert v in requested <==> v in before || v == last;
        if v in part { assert v in all; }
      }
      forall i, j | 0 <= i < j < |all|
        ensures FirstIndex(requested, all[i]) < FirstIndex(requested, all[j])
      {
        FirstIndexOfPrefix(before, last, all[i]);
        FirstIndexOfPrefix(before, last, all[j]);
        if j < |part| { assert part[i] == all[i] && part[j] == all[j]; }
      }
    }
  }

  method ExactIntersection(requested: seq<string>, allowed: seq<string>) returns (result: seq<string>)
    ensures result == Kept(requested, Exact(allowed))
  {
    if requested == [] { return []; }
    result := [];
    var seen: set<string> := {};
    for i := 0 to |requested|
      invariant result == Kept(requested[..i], Exact(allowed))
      invariant forall v :: v in seen <==> v in result
    {
      var value := requested[i];
      assert requested[..i + 1][..i] == requested[..i];
      if value !in allowed { continue; }
      if value in seen { continue; }
      seen, result := seen + {value}, result + [value];
    }
    assert requested[..|requested|] == requested;
  }

  method Covered(ceilings: seq<string>, scope: string) returns (allowed: bool)
    ensures allowed <==> Allows(Scopes(ceilings), scope)
  {
    for i := 0 to |ceilings|
      invariant forall j | 0 <= j < i :: !Covers(ceilings[j], scope)
    {
      if Covers(ceilings[i], scope) { return true; }
    }
    allowed := false;
  }

  predicate Concrete(scope: string) { '*' !in scope }

  predicate AllConcrete(scopes: seq<string>) { forall i | 0 <= i < |scopes| :: Concrete(scopes[i]) }

  /** Requested scopes must be concrete; nothing is returned when one is not. */
  method ResourceIntersection(requested: seq<string>, ceilings: seq<string>) returns (result: Option<seq<string>>)
    ensures result == if AllConcrete(requested) then Some(Kept(requested, Scopes(ceilings))) else None
  {
    hide Allows;
    if requested == [] { return Some([]); }
    var kept: seq<string> := [];
    var seen: set<string> := {};
    for i := 0 to |requested|
      invariant kept == Kept(requested[..i], Scopes(ceilings))
      invariant forall v :: v in seen <==> v in kept
      invariant AllConcrete(requested[..i])
    {
      var scope := requested[i];
      assert requested[..i + 1][..i] == requested[..i];
      if '*' in scope { return None; }
      var allowed := Covered(ceilings, scope);
      if !allowed { continue; }
      if scope in seen { continue; }
      seen, kept := seen + {scope}, kept + [scope];
    }
    assert requested[..|requested|] == requested;
    result := Some(kept);
  }

  // ---------------------------------------------------------------- the grant

  function Capped(values: seq<string>, cap: Option<seq<string>>): seq<string> {
    if cap.None? then values else Kept(values, Exact(cap.value))
  }

  function Min(a: int, b: int): int { if b < a then b else a }

  function MinCap(a: int, cap: Option<int>): int { if cap.Some? then Min(a, cap.value) else a }

  function CallCeiling(ceiling: Ceiling, caps: Caps): int {
    MinCap(if ceiling.maxCalls.Some? then ceiling.maxCalls.value else DEFAULT_MODEL_CALLS, caps.maxCalls)
  }

  /** The number of model calls that is intended. */
  function Calls(request: Request, ceiling: Ceiling, caps: Caps): int {
    if request.runtime.maxModelCalls.Some? then request.runtime.maxModelCalls.value else Min(DEFAULT_MODEL_CALLS, CallCeiling(ceiling, caps))
  }

  /** An unstated default is recorded as zero. */
  function EncodedCalls(request: Request, calls: int): int {
    if request.runtime.maxModelCalls.None? && calls == DEFAULT_MODEL_CALLS then 0 else calls
  }

  function GrantOf(request: Request, ceiling: Ceiling, caps: Caps): Authority
    requires ceiling.maxTimeout.Some?
  {
    Authority("", Capped(Kept(request.access.tools, Exact(ceiling.tools)), caps.tools),
              Capped(Kept(request.access.resources, Scopes(ceiling.resources)), caps.resources), request.access.model,
              Capped(Kept(request.access.memory, Exact(ceiling.memory)), caps.memory), request.access.network,
              Grant(request.runtime.profileRef, MinCap(Min(request.runtime.timeout, ceiling.maxTimeout.value), caps.maxTimeout),
                    EncodedCalls(request, Calls(request, ceiling, caps))))
  }

  /** A cap names only values that were requested. */
  predicate CapRequested(cap: Option<seq<string>>, requested: seq<string>) { cap.Some? ==> forall i | 0 <= i < |cap.value| :: cap.value[i] in requested }

  predicate CapsRequested(request: Request, caps: Caps) {
    CapRequested(caps.tools, request.access.tools) && CapRequested(caps.resources, request.access.resources) &&
    CapRequested(caps.memory, request.access.memory) && CapRequested(caps.models, [request.access.model]) &&
    CapRequested(caps.runtimes, [request.runtime.profileRef])
  }

  /** A wildcard may only end a scope, and not be all of it. */
  predicate ScopeCeilingFits(scope: string) {
    (forall i | 0 <= i < |scope| - 1 :: scope[i] != '*') && scope != "*"
  }

  predicate ScopesFit(scopes: seq<string>) { forall i | 0 <= i < |scopes| :: ScopeCeilingFits(scopes[i]) }

  predicate NetworkConsented(network: seq<string>, ceiling: Ceiling, caps: Caps) {
    forall i | 0 <= i < |network| :: network[i] in ceiling.network && caps.network.Some? && network[i] in caps.network.value
  }

  predicate ModelConsented(model: string, ceiling: Ceiling, caps: Caps) {
    model != "" ==> model in ceiling.models && (caps.models.Some? ==> model in caps.models.value)
  }

  predicate RuntimeConsented(profile: string, ceiling: Ceiling, caps: Caps) {
    profile in ceiling.runtimes && (caps.runtimes.Some? ==> profile in caps.runtimes.value)
  }

  predicate NotEmptied(requested: seq<string>, granted: seq<string>) { requested != [] ==> granted != [] }

  /** When a request is granted at all. */
  predicate Grantable(request: Request, template: Template, caps: Caps, admitted: bool) {
    ValidClaimRequest(request) && ValidTemplate(template) && request.templateRef == template.name && admitted && CapsRequested(request, caps) &&
    var c := template.ceiling;
    ScopesFit(c.resources) && AllConcrete(request.access.resources) &&
    NotEmptied(request.access.tools, Capped(Kept(request.access.tools, Exact(c.tools)), caps.tools)) &&
    NotEmptied(request.access.resources, Capped(Kept(request.access.resources, Scopes(c.resources)), caps.resources)) &&
    NotEmptied(request.access.memory, Capped(Kept(request.access.memory, Exact(c.memory)), caps.memory)) &&
    NetworkConsented(request.access.network, c, caps) && ModelConsented(request.access.model, c, caps) &&
    RuntimeConsented(request.runtime.profileRef, c, caps) && c.maxTimeout.Some? && c.maxTimeout.value > 0 &&
    (request.runtime.maxModelCalls.Some? ==> request.runtime.maxModelCalls.value <= CallCeiling(c, caps))
  }

  method ApplySetCap(values: seq<string>, cap: Option<seq<string>>) returns (result: seq<string>)
    ensures result == Capped(values, cap)
  {
    if cap.None? { return values; }
    result := ExactIntersection(values, cap.value);
  }

  method CapWithin(cap: Option<seq<string>>, requested: seq<string>) returns (ok: bool)
    ensures ok <==> CapRequested(cap, requested)
  {
    if cap.None? { return true; }
    for i := 0 to |cap.value|
      invariant forall j | 0 <= j < i :: cap.value[j] in requested
    {
      if cap.value[i] !in requested { return false; }
    }
    ok := true;
  }

  /** The lists of the grant, or nothing when a requested dimension came out empty or a scope was not concrete. */
  method ResolveLists(request: Request, ceiling: Ceiling, caps: Caps) returns (lists: Option<(seq<string>, seq<string>, seq<string>)>)
    ensures var tools, resources, memory := Capped(Kept(request.access.tools, Exact(ceiling.tools)), caps.tools),
                                            Capped(Kept(request.access.resources, Scopes(ceiling.resources)), caps.resources),
                                            Capped(Kept(request.access.memory, Exact(ceiling.memory)), caps.memory);
            lists == if AllConcrete(request.access.resources) && NotEmptied(request.access.tools, tools) &&
                        NotEmptied(request.access.resources, resources) && NotEmptied(request.access.memory, memory)
                     then Some((tools, resources, memory)) else None
  {
    hide Kept, AllConcrete;
    var tools := ExactIntersection(request.access.tools, ceiling.tools);
    tools := ApplySetCap(tools, caps.tools);
    if request.access.tools != [] && tools == [] { return None; }
    var scopes := ResourceIntersection(request.access.resources, ceiling.resources);
    if scopes.None? { return None; }
    var resources := ApplySetCap(scopes.value, caps.resources);
    if request.access.resources != [] && resources == [] { return None; }
    var memory := ExactIntersection(request.access.memory, ceiling.memory);
    memory := ApplySetCap(memory, caps.memory);
    if request.access.memory != [] && memory == [] { return None; }
    lists := Some((tools, resources, memory));
  }

  /** Resolves a request under its template ceiling and policy caps; `admitted` says that the gate admitted
      exactly this request, project and template. */
  method Resolve(request: Request, template: Template, caps: Caps, admitted: bool) returns (granted: Option<Authority>)
    ensures granted.Some? <==> Grantable(request, template, caps, admitted)
    ensures granted.Some? ==> granted.value == GrantOf(request, template.ceiling, caps)
  {
    hide ValidClaimRequest, ValidTemplate, CapRequested, Kept, AllConcrete, ScopesFit, NetworkConsented;
    if !ValidClaimRequest(request) || !ValidTemplate(template) || request.templateRef != template.name || !admitted { return None; }
    var c := template.ceiling;
    var tools := CapWithin(caps.tools, request.access.tools);
    var resources := CapWithin(caps.resources, request.access.resources);
    var memory := CapWithin(caps.memory, request.access.memory);
    var models := CapWithin(caps.models, [request.access.model]);
    var runtimes := CapWithin(caps.runtimes, [request.runtime.profileRef]);
    if !tools || !resources || !memory || !models || !runtimes || !ScopesFit(c.resources) { return None; }
    var lists := ResolveLists(request, c, caps);
    if lists.None? || !NetworkConsented(request.access.network, c, caps) { return None; }
    if !ModelConsented(request.access.model, c, caps) || !RuntimeConsented(request.runtime.profileRef, c, caps) { return None; }
    if c.maxTimeout.None? || c.maxTimeout.value <= 0 { return None; }
    var timeout := request.runtime.timeout;
    if c.maxTimeout.value < timeout { timeout := c.maxTimeout.value; }
    if caps.maxTimeout.Some? && caps.maxTimeout.value < timeout { timeout := caps.maxTimeout.value; }
    var ceilingCalls := if c.maxCalls.Some? then c.maxCalls.value else DEFAULT_MODEL_CALLS;
    if caps.maxCalls.Some? && caps.maxCalls.value < ceilingCalls { ceilingCalls := caps.maxCalls.value; }
    var calls := DEFAULT_MODEL_CALLS;
    if request.runtime.maxModelCalls.Some? {
      calls := request.runtime.maxModelCalls.value;
      if calls > ceilingCalls { return None; }
    } else if calls > ceilingCalls {
      calls := ceilingCalls;
    }
    var encoded := if request.runtime.maxModelCalls.None? && calls == DEFAULT_MODEL_CALLS then 0 else calls;
    granted := Some(Authority("", lists.value.0, lists.value.1, request.access.model, lists.value.2, request.access.network,
                              Grant(request.runtime.profileRef, timeout, encoded)));
  }

  // ---------------------------------------------------------------- the grant is an exact meet

  lemma {:induction false} FirstIndexIsFirst(list: seq<string>, i: nat)
    requires i < |list| && Distinct(list)
    ensures FirstIndex(list, list[i]) == i
  {
    if i > 0 {
      assert list[0] != list[i];
      FirstIndexIsFirst(list[1..], i - 1);
    }
  }

  lemma InOrderTrans(part: seq<string>, mid: seq<string>, whole: seq<string>)
    requires InOrder(part, mid) && InOrder(mid, whole) && Distinct(mid) && forall v :: v in part ==> v in mid
    ensures InOrder(part, whole)
  {
    hide FirstIndex;
    forall i, j | 0 <= i < j < |part|
      ensures FirstIndex(whole, part[i]) < FirstIndex(whole, part[j])
    {
      assert part[i] in mid && part[j] in mid;
      var a :| 0 <= a < |mid| && mid[a] == part[i];
      var b :| 0 <= b < |mid| && mid[b] == part[j];
      FirstIndexIsFirst(mid, a);
      FirstIndexIsFirst(mid, b);
      assert a < b;
    }
  }

  predicate WithinCap(cap: Option<seq<string>>, value: string) { cap.Some? ==> value in cap.value }

  /** A capped list holds exactly the requested values that the ceiling and the cap allow, once each, in order. */
  lemma CappedExactly(requested: seq<string>, limit: Limit, cap: Option<seq<string>>)
    ensures var got := Capped(Kept(requested, limit), cap);
            (forall v :: v in got <==> v in requested && Allows(limit, v) && WithinCap(cap, v)) && Distinct(got) && InOrder(got, requested)
  {
    hide Kept, InOrder;
    KeptExactly(requested, limit);
    if cap.Some? {
      var mid := Kept(requested, limit);
      KeptExactly(mid, Exact(cap.value));
      InOrderTrans(Kept(mid, Exact(cap.value)), mid, requested);
    }
  }

  /** Each granted list is the exact meet of request, ceiling and cap; network profiles, model and runtime profile are granted
      as asked for, and only where ceiling and cap list them. */
  lemma GrantIsExactMeet(request: Request, template: Template, caps: Caps)
    requires Grantable(request, template, caps, true)
    ensures var g, a, c := GrantOf(request, template.ceiling, caps), request.access, template.ceiling;
            (forall v :: v in g.tools <==> v in a.tools && v in c.tools && WithinCap(caps.tools, v)) && Distinct(g.tools) && InOrder(g.tools, a.tools) &&
            (forall v :: v in g.resources <==> v in a.resources && Allows(Scopes(c.resources), v) && WithinCap(caps.resources, v)) &&
            Distinct(g.resources) && InOrder(g.resources, a.resources) &&
            (forall v :: v in g.memory <==> v in a.memory && v in c.memory && WithinCap(caps.memory, v)) && Distinct(g.memory) && InOrder(g.memory, a.memory) &&
            g.network == a.network && (forall v | v in g.network :: v in c.network && caps.network.Some? && v in caps.network.value) &&
            g.model == a.model && (g.model != "" ==> g.model in c.models && WithinCap(caps.models, g.model)) &&
            g.runtime.profileRef == request.runtime.profileRef && g.runtime.profileRef in c.runtimes && WithinCap(caps.runtimes, g.runtime.profileRef)
  {
    hide Kept, InOrder, Capped;
    CappedExactly(request.access.tools, Exact(template.ceiling.tools), caps.tools);
    CappedExactly(request.access.resources, Scopes(template.ceiling.resources), caps.resources);
    CappedExactly(request.access.memory, Exact(template.ceiling.memory), caps.memory);
  }

  /** When a request is granted, in terms of the values that were asked for and allowed: every cap names only what was asked
      for, every scope asked for is concrete, of each list that was asked for some value is allowed by ceiling and cap, the
      model, the runtime profile and each network profile are listed by both, and the calls asked for are within both limits. */
  lemma GrantedExactly(request: Request, template: Template, caps: Caps, admitted: bool)
    ensures var a, r, c := request.access, request.runtime, template.ceiling;
            Grantable(request, template, caps, admitted) <==>
              admitted && ValidClaimRequest(request) && ValidTemplate(template) && template.name == request.templateRef &&
              (caps.tools.Some? ==> forall v | v in caps.tools.value :: v in a.tools) &&
              (caps.resources.Some? ==> forall v | v in caps.resources.value :: v in a.resources) &&
              (caps.memory.Some? ==> forall v | v in caps.memory.value :: v in a.memory) &&
              (caps.models.Some? ==> forall v | v in caps.models.value :: v == a.model) &&
              (caps.runtimes.Some? ==> forall v | v in caps.runtimes.value :: v == r.profileRef) &&
              (forall v | v in c.resources && '*' in v :: |v| > 1 && '*' !in v[..|v| - 1]) &&
              (forall v | v in a.resources :: '*' !in v) &&
              (a.tools != [] ==> exists v | v in a.tools :: v in c.tools && WithinCap(caps.tools, v)) &&
              (a.resources != [] ==> exists v | v in a.resources :: WithinCap(caps.resources, v) && exists u | u in c.resources :: Covers(u, v)) &&
              (a.memory != [] ==> exists v | v in a.memory :: v in c.memory && WithinCap(caps.memory, v)) &&
              (forall v | v in a.network :: v in c.network && caps.network.Some? && v in caps.network.value) &&
              (a.model != "" ==> a.model in c.models && WithinCap(caps.models, a.model)) &&
              r.profileRef in c.runtimes && WithinCap(caps.runtimes, r.profileRef) && c.maxTimeout.Some? && c.maxTimeout.value > 0 &&
              (r.maxModelCalls.Some? ==> r.maxModelCalls.value <= (if c.maxCalls.Some? then c.maxCalls.value else 6) &&
                                         (caps.maxCalls.Some? ==> r.maxModelCalls.value <= caps.maxCalls.value))
  {
    hide ValidClaimRequest, ValidTemplate, Kept, Capped, Covers, Allows, AllConcrete, ScopesFit, NotEmptied, CapRequested, WithinCap;
    var a, c := request.access, template.ceiling;
    KeptWhenAllowed(a.tools, Exact(c.tools), caps.tools);
    KeptWhenAllowed(a.resources, Scopes(c.resources), caps.resources);
    KeptWhenAllowed(a.memory, Exact(c.memory), caps.memory);
    ScopesExactly(a.resources, c.resources);
    ListedExactly(c.tools);
    ListedExactly(c.memory);
    CapExactly(caps.tools, a.tools);
    CapExactly(caps.resources, a.resources);
    CapExactly(caps.memory, a.memory);
    CapExactly(caps.models, [a.model]);
    CapExactly(caps.runtimes, [request.runtime.profileRef]);
    WithinExactly(caps, a.model);
    WithinExactly(caps, request.runtime.profileRef);
  }

  /** A scope is covered by itself and by every beginning of it that is followed by a star. */
  lemma CoversExactly(ceiling: string, scope: string)
    ensures Covers(ceiling, scope) <==> ceiling == scope || exists n | 0 <= n <= |scope| :: ceiling == scope[..n] + "*"
  {
    if ceiling != "" {
      var n := |ceiling| - 1;
      assert ceiling == ceiling[..n] + [ceiling[n]];
      if ceiling[n] == '*' && ceiling[..n] <= scope { assert ceiling == scope[..n] + "*"; }
      forall m | 0 <= m <= |scope| && ceiling == scope[..m] + "*" ensures ceiling[..n] <= scope { assert ceiling[..n] == scope[..m]; }
    }
  }

  lemma ListedExactly(values: seq<string>)
    ensures forall v :: Allows(Exact(values), v) <==> v in values
  {
  }

  lemma CapExactly(cap: Option<seq<string>>, requested: seq<string>)
    ensures CapRequested(cap, requested) <==> (cap.Some? ==> forall v | v in cap.value :: v in requested)
  {
  }

  lemma WithinExactly(caps: Caps, value: string)
    ensures WithinCap(caps.models, value) <==> (caps.models.Some? ==> value in caps.models.value)
    ensures WithinCap(caps.runtimes, value) <==> (caps.runtimes.Some? ==> value in caps.runtimes.value)
  {
  }

  lemma ScopesExactly(requested: seq<string>, ceilings: seq<string>)
    ensures ScopesFit(ceilings) <==> forall v | v in ceilings && '*' in v :: |v| > 1 && '*' !in v[..|v| - 1]
    ensures AllConcrete(requested) <==> forall v | v in requested :: '*' !in v
    ensures forall v :: Allows(Scopes(ceilings), v) <==> exists u | u in ceilings :: Covers(u, v)
  {
    hide Covers;
    forall v | v in ceilings ensures ScopeCeilingFits(v) <==> ('*' in v ==> |v| > 1 && '*' !in v[..|v| - 1]) { ScopeCeilingExactly(v); }
    assert ScopesFit(ceilings) <==> forall v | v in ceilings :: ScopeCeilingFits(v);
    forall v ensures Allows(Scopes(ceilings), v) <==> exists u | u in ceilings :: Covers(u, v) { AllowedScope(ceilings, v); }
  }

  /** Something is left of a list exactly when it was empty or some value of it is allowed. */
  lemma KeptWhenAllowed(requested: seq<string>, limit: Limit, cap: Option<seq<string>>)
    ensures NotEmptied(requested, Capped(Kept(requested, limit), cap)) <==>
            (requested != [] ==> exists v | v in requested :: Allows(limit, v) && WithinCap(cap, v))
  {
    hide Kept, Capped, Allows, InOrder;
    CappedExactly(requested, limit, cap);
    var got := Capped(Kept(requested, limit), cap);
    if got != [] { assert got[0] in got; }
  }

  lemma AllowedScope(ceilings: seq<string>, value: string)
    ensures Allows(Scopes(ceilings), value) <==> exists u | u in ceilings :: Covers(u, value)
  {
    hide Covers;
  }

  lemma ScopeCeilingExactly(scope: string)
    ensures ScopeCeilingFits(scope) <==> ('*' in scope ==> |scope| > 1 && '*' !in scope[..|scope| - 1])
  {
    if scope != "" {
      var n := |scope| - 1;
      assert scope == scope[..n] + [scope[n]];
      assert '*' in scope[..n] <==> exists i | 0 <= i < n :: scope[i] == '*';
    }
  }

  /** The granted timeout is the least of the three that are stated. */
  lemma TimeoutIsMinimum(request: Request, template: Template, caps: Caps)
    requires Grantable(request, template, caps, true)
    ensures var t := GrantOf(request, template.ceiling, caps).runtime.timeout;
            t <= request.runtime.timeout && t <= template.ceiling.maxTimeout.value && (caps.maxTimeout.Some? ==> t <= caps.maxTimeout.value) &&
            (t == request.runtime.timeout || t == template.ceiling.maxTimeout.value || caps.maxTimeout == Some(t))
  {
  }

  /** The recorded number decodes to the intended number of calls exactly when that is not zero, and a stated
      request is met in full or refused. */
  lemma CallsDecode(request: Request, template: Template, caps: Caps)
    requires Grantable(request, template, caps, true)
    ensures var encoded, calls := GrantOf(request, template.ceiling, caps).runtime.maxModelCalls, Calls(request, template.ceiling, caps);
            (ModelCallLimit(encoded) == calls <==> calls != 0) && calls <= CallCeiling(template.ceiling, caps) &&
            (request.runtime.maxModelCalls.Some? ==> calls == request.runtime.maxModelCalls.value) && (encoded == 0 ==> request.runtime.maxModelCalls.None?)
    ensures var calls, limit, cap := Calls(request, template.ceiling, caps), template.ceiling.maxCalls, caps.maxCalls;
            request.runtime.maxModelCalls.None? ==>
              calls <= 6 && (limit.Some? ==> calls <= limit.value) && (cap.Some? ==> calls <= cap.value) && (calls == 6 || limit == Some(calls) || cap == Some(calls))
  {
  }

  /** One ceiling is no wider than another: it allows no value, and no concrete scope, that the other does not. */
  ghost predicate Narrower(a: Ceiling, b: Ceiling) {
    (forall v | v in a.tools :: v in b.tools) &&
    (forall v | Concrete(v) && Allows(Scopes(a.resources), v) :: Allows(Scopes(b.resources), v)) && (forall v | v in a.memory :: v in b.memory) &&
    (a.maxTimeout.Some? && b.maxTimeout.Some? ==> a.maxTimeout.value <= b.maxTimeout.value) &&
    CallCeiling(a, Caps(None, None, None, None, None, None, None, None)) <= CallCeiling(b, Caps(None, None, None, None, None, None, None, None))
  }

  predicate NoMore(a: Authority, b: Authority) {
    (forall v | v in a.tools :: v in b.tools) && (forall v | v in a.resources :: v in b.resources) && (forall v | v in a.memory :: v in b.memory) &&
    a.network == b.network && a.model == b.model && a.runtime.profileRef == b.runtime.profileRef && a.runtime.timeout <= b.runtime.timeout
  }

  /** Narrowing the ceiling never grows a grant. */
  lemma NarrowerGrantsNoMore(request: Request, a: Template, b: Template, caps: Caps)
    requires Grantable(request, a, caps, true) && Grantable(request, b, caps, true) && Narrower(a.ceiling, b.ceiling)
    ensures NoMore(GrantOf(request, a.ceiling, caps), GrantOf(request, b.ceiling, caps))
    ensures Calls(request, a.ceiling, caps) <= Calls(request, b.ceiling, caps)
  {
    hide GrantOf, InOrder, Distinct;
    GrantIsExactMeet(request, a, caps);
    GrantIsExactMeet(request, b, caps);
    var g, h := GrantOf(request, a.ceiling, caps), GrantOf(request, b.ceiling, caps);
    forall v | v in g.resources ensures v in h.resources { assert Concrete(v); }
    GrantScalars(request, a.ceiling, caps);
    GrantScalars(request, b.ceiling, caps);
  }

  lemma GrantScalars(request: Request, ceiling: Ceiling, caps: Caps)
    requires ceiling.maxTimeout.Some?
    ensures var g := GrantOf(request, ceiling, caps);
            g.runtime.timeout == MinCap(Min(request.runtime.timeout, ceiling.maxTimeout.value), caps.maxTimeout) && g.model == request.access.model &&
            g.runtime.profileRef == request.runtime.profileRef && g.network == request.access.network
  {
  }

  // ---------------------------------------------------------------- recorded differences

  function ReasonFor(cap: Option<seq<string>>, value: string): ChangeReason {
    if cap.Some? && value !in cap.value then OutsidePolicyConstraint else OutsideTemplateCeiling
  }

  function ListChanges(field: Field, requested: seq<string>, granted: seq<string>, cap: Option<seq<string>>): seq<Change> {
    if requested == [] then [] else
    var before, value := ListChanges(field, requested[..|requested| - 1], granted, cap), requested[|requested| - 1];
    if value in granted then before else before + [Change(field, Value(value), Nothing, ReasonFor(cap, value))]
  }

  function TimeoutChanges(request: Request, granted: Authority, caps: Caps): seq<Change> {
    if request.runtime.timeout == granted.runtime.timeout then [] else
    [Change(RuntimeTimeout, Span(request.runtime.timeout), Span(granted.runtime.timeout),
            if caps.maxTimeout.Some? && caps.maxTimeout.value <= granted.runtime.timeout then PolicyTimeoutCap else TemplateTimeoutCap)]
  }

  /** What the resolver records of a grant. */
  function ChangesOf(request: Request, granted: Authority, caps: Caps): seq<Change> {
    ListChanges(Tools, request.access.tools, granted.tools, caps.tools) +
    ListChanges(ResourceScopes, request.access.resources, granted.resources, caps.resources) +
    ListChanges(MemoryScopes, request.access.memory, granted.memory, caps.memory) +
    ListChanges(NetworkProfiles, request.access.network, granted.network, caps.network) + TimeoutChanges(request, granted, caps)
  }

  /** Appends the differences of one dimension. */
  method RecordDimension(changes: seq<Change>, field: Field, requested: seq<string>, granted: seq<string>, cap: Option<seq<string>>) returns (all: seq<Change>)
    ensures all == changes + ListChanges(field, requested, granted, cap)
  {
    all := changes;
    for i := 0 to |requested|
      invariant all == changes + ListChanges(field, requested[..i], granted, cap)
    {
      var value := requested[i];
      assert requested[..i + 1][..i] == requested[..i];
      if value !in granted {
        var reason := OutsideTemplateCeiling;
        if cap.Some? && value !in cap.value { reason := OutsidePolicyConstraint; }
        all := all + [Change(field, Value(value), Nothing, reason)];
      }
    }
    assert requested[..|requested|] == requested;
  }

  /** Resolves a request and records how its grant differs from it. */
  method ResolveForIssuance(request: Request, template: Template, caps: Caps, admitted: bool) returns (resolution: Option<(Authority, seq<Change>)>)
    ensures resolution.Some? <==> Grantable(request, template, caps, admitted)
    ensures resolution.Some? ==> var granted := GrantOf(request, template.ceiling, caps); resolution.value == (granted, ChangesOf(request, granted, caps))
  {
    hide Grantable, GrantOf, ListChanges;
    var resolved := Resolve(request, template, caps, admitted);
    if resolved.None? { return None; }
    var granted := resolved.value;
    var changes := RecordDimension([], Tools, request.access.tools, granted.tools, caps.tools);
    changes := RecordDimension(changes, ResourceScopes, request.access.resources, granted.resources, caps.resources);
    changes := RecordDimension(changes, MemoryScopes, request.access.memory, granted.memory, caps.memory);
    changes := RecordDimension(changes, NetworkProfiles, request.access.network, granted.network, caps.network);
    if request.runtime.timeout != granted.runtime.timeout {
      var reason := TemplateTimeoutCap;
      if caps.maxTimeout.Some? && caps.maxTimeout.value <= granted.runtime.timeout { reason := PolicyTimeoutCap; }
      changes := changes + [Change(RuntimeTimeout, Span(request.runtime.timeout), Span(granted.runtime.timeout), reason)];
    }
    assert changes == ChangesOf(request, granted, caps);
    resolution := Some((granted, changes));
  }

  // ---------------------------------------------------------------- the client agrees

  predicate Explains(changes: seq<Change>, gaps: seq<Gap>) {
    |changes| == |gaps| && forall i | 0 <= i < |changes| :: GapOf(changes[i]) == gaps[i] && ReasonFits(changes[i].field, changes[i].reason)
  }

  /** The client's own list of removed values is the one the resolver recorded. */
  lemma {:induction false} ListAgrees(field: Field, requested: seq<string>, granted: seq<string>, cap: Option<seq<string>>)
    requires !field.RuntimeTimeout?
    ensures Explains(ListChanges(field, requested, granted, cap), Gaps(field, Removed(requested, granted)))
  {
    if requested != [] { ListAgrees(field, requested[..|requested| - 1], granted, cap); }
  }

  lemma ExplainsBoth(a: seq<Change>, b: seq<Change>, x: seq<Gap>, y: seq<Gap>)
    requires Explains(a, x) && Explains(b, y)
    ensures Explains(a + b, x + y)
  {
  }

  /** Whatever the resolver grants, the client's independent comparison accepts the grant and its differences. */
  lemma ClientAgrees(request: Request, template: Template, caps: Caps)
    requires Grantable(request, template, caps, true)
    ensures var granted := GrantOf(request, template.ceiling, caps);
            AuthorityWithinRequest(granted, request) && ValidAuthorityChanges(request, granted, ChangesOf(request, granted, caps))
  {
    hide GrantOf, ListChanges, Gaps, Removed, GapOf, ReasonFits, Explains, InOrder, Distinct, Kept, Capped;
    var granted := GrantOf(request, template.ceiling, caps);
    ClientAcceptsChanges(request, granted, caps);
    GrantIsExactMeet(request, template, caps);
    GrantScalars(request, template.ceiling, caps);
    TimeoutIsMinimum(request, template, caps);
    GrantIsNotEmptied(request, template, caps);
  }

  lemma GrantIsNotEmptied(request: Request, template: Template, caps: Caps)
    requires Grantable(request, template, caps, true)
    ensures var g := GrantOf(request, template.ceiling, caps);
            NotEmptied(request.access.tools, g.tools) && NotEmptied(request.access.resources, g.resources) &&
            NotEmptied(request.access.memory, g.memory) && NotEmptied(request.access.network, g.network)
  {
    hide Kept;
  }

  lemma ClientAcceptsChanges(request: Request, granted: Authority, caps: Caps)
    ensures ValidAuthorityChanges(request, granted, ChangesOf(request, granted, caps))
  {
    hide ListChanges, Gaps, Removed;
    var t, r, m, n := ListChanges(Tools, request.access.tools, granted.tools, caps.tools), ListChanges(ResourceScopes, request.access.resources, granted.resources, caps.resources),
                      ListChanges(MemoryScopes, request.access.memory, granted.memory, caps.memory), ListChanges(NetworkProfiles, request.access.network, granted.network, caps.network);
    ListAgrees(Tools, request.access.tools, granted.tools, caps.tools);
    ListAgrees(ResourceScopes, request.access.resources, granted.resources, caps.resources);
    ListAgrees(MemoryScopes, request.access.memory, granted.memory, caps.memory);
    ListAgrees(NetworkProfiles, request.access.network, granted.network, caps.network);
    var x, y, z, w := Gaps(Tools, Removed(request.access.tools, granted.tools)), Gaps(ResourceScopes, Removed(request.access.resources, granted.resources)),
                      Gaps(MemoryScopes, Removed(request.access.memory, granted.memory)), Gaps(NetworkProfiles, Removed(request.access.network, granted.network));
    ExplainsBoth(t, r, x, y);
    ExplainsBoth(t + r, m, x + y, z);
    ExplainsBoth(t + r + m, n, x + y + z, w);
    ExplainsBoth(t + r + m + n, TimeoutChanges(request, granted, caps), x + y + z + w, TimeoutGap(request, granted));
  }

  // ---------------------------------------------------------------- nothing is lost

  lemma {:induction false} RemovedExactly(requested: seq<string>, granted: seq<string>)
    ensures forall v :: v in Removed(requested, granted) <==> v in requested && v !in granted
  {
    if requested != [] {
      var n := |requested| - 1;
      RemovedExactly(requested[..n], granted);
      assert requested == requested[..n] + [requested[n]];
    }
  }

  predicate RecordsRemoval(changes: seq<Change>, field: Field, value: string) {
    exists i | 0 <= i < |changes| :: changes[i].field == field && changes[i].requested == Value(value)
  }

  lemma GapsSayRemoved(field: Field, removed: seq<string>, value: string)
    ensures value in removed <==> Gap(field, Value(value), Nothing) in Gaps(field, removed)
  {
    if value in removed {
      var i :| 0 <= i < |removed| && removed[i] == value;
      assert Gaps(field, removed)[i] == Gap(field, Value(value), Nothing);
    }
  }

  function DimensionOf(request: Request, field: Field): seq<string> {
    match field
    case Tools => request.access.tools
    case ResourceScopes => request.access.resources
    case MemoryScopes => request.access.memory
    case NetworkProfiles => request.access.network
    case _ => []
  }

  function GrantedOf(granted: Authority, field: Field): seq<string> {
    match field
    case Tools => granted.tools
    case ResourceScopes => granted.resources
    case MemoryScopes => granted.memory
    case NetworkProfiles => granted.network
    case _ => []
  }

  lemma GapsExactly(request: Request, granted: Authority, field: Field, value: string)
    requires field.Tools? || field.ResourceScopes? || field.MemoryScopes? || field.NetworkProfiles?
    ensures Gap(field, Value(value), Nothing) in ExpectedGaps(request, granted) <==> value in DimensionOf(request, field) && value !in GrantedOf(granted, field)
  {
    hide Gaps, Removed;
    RemovedExactly(DimensionOf(request, field), GrantedOf(granted, field));
    GapsSayRemoved(field, Removed(DimensionOf(request, field), GrantedOf(granted, field)), value);
    GapsNameField(Tools, Removed(request.access.tools, granted.tools));
    GapsNameField(ResourceScopes, Removed(request.access.resources, granted.resources));
    GapsNameField(MemoryScopes, Removed(request.access.memory, granted.memory));
    GapsNameField(NetworkProfiles, Removed(request.access.network, granted.network));
  }

  lemma GapsNameField(field: Field, values: seq<string>)
    ensures forall g | g in Gaps(field, values) :: g.field == field && g.effective.Nothing? && g.requested.Value?
  {
  }

  /** For any grant and differences the client accepts: every requested value is either granted or recorded as
      removed, never both, and nothing else is recorded as removed. */
  lemma RequestSplits(request: Request, granted: Authority, changes: seq<Change>, field: Field, value: string)
    requires AuthorityWithinRequest(granted, request) && ValidAuthorityChanges(request, granted, changes)
    requires field.Tools? || field.ResourceScopes? || field.MemoryScopes? || field.NetworkProfiles?
    ensures RecordsRemoval(changes, field, value) <==> value in DimensionOf(request, field) && value !in GrantedOf(granted, field)
    ensures value in GrantedOf(granted, field) ==> value in DimensionOf(request, field)
  {
    hide ExpectedGaps;
    var gaps, gap := ExpectedGaps(request, granted), Gap(field, Value(value), Nothing);
    GapsExactly(request, granted, field, value);
    GapsAreRemovals(request, granted);
    if RecordsRemoval(changes, field, value) {
      var i :| 0 <= i < |changes| && changes[i].field == field && changes[i].requested == Value(value);
      assert gaps[i] == GapOf(changes[i]) && gaps[i] == gap;
    }
    if gap in gaps {
      var i :| 0 <= i < |gaps| && gaps[i] == gap;
      assert GapOf(changes[i]) == gap;
    }
  }

  lemma GapsAreRemovals(request: Request, granted: Authority)
    ensures forall i | 0 <= i < |ExpectedGaps(request, granted)| && !ExpectedGaps(request, granted)[i].field.RuntimeTimeout? ::
              ExpectedGaps(request, granted)[i].effective.Nothing?
  {
    hide Removed;
  }
}
