/** The client's own comparison of a request with the authority that was granted for it. */
module ClientAuthority {
  import opened Evidence

  predicate ListWithin(granted: seq<string>, requested: seq<string>) {
    (requested != [] ==> granted != []) && forall i | 0 <= i < |granted| :: granted[i] in requested
  }

  /** The grant never exceeds the request and drops no requested dimension entirely. */
  predicate AuthorityWithinRequest(granted: Authority, request: Request) {
    ListWithin(granted.tools, request.access.tools) && ListWithin(granted.resources, request.access.resources) &&
    ListWithin(granted.memory, request.access.memory) && ListWithin(granted.network, request.access.network) &&
    granted.model == request.access.model && granted.runtime.profileRef == request.runtime.profileRef &&
    granted.runtime.timeout <= request.runtime.timeout
  }

  /** The requested values that were not granted, in the order requested. */
  function Removed(requested: seq<string>, granted: seq<string>): seq<string> {
    if requested == [] then [] else
    var rest := Removed(requested[..|requested| - 1], granted);
    var value := requested[|requested| - 1];
    if value in granted then rest else rest + [value]
  }

  /** A difference without the reason that only the resolver knows. */
  datatype Gap = Gap(field: Field, requested: Quantity, effective: Quantity)

  function Gaps(field: Field, values: seq<string>): seq<Gap> {
    seq(|values|, i requires 0 <= i < |values| => Gap(field, Value(values[i]), Nothing))
  }

  function TimeoutGap(request: Request, granted: Authority): seq<Gap> {
    if request.runtime.timeout == granted.runtime.timeout then []
    else [Gap(RuntimeTimeout, Span(request.runtime.timeout), Span(granted.runtime.timeout))]
  }

  function ExpectedGaps(request: Request, granted: Authority): seq<Gap> {
    Gaps(Tools, Removed(request.access.tools, granted.tools)) +
    Gaps(ResourceScopes, Removed(request.access.resources, granted.resources)) +
    Gaps(MemoryScopes, Removed(request.access.memory, granted.memory)) +
    Gaps(NetworkProfiles, Removed(request.access.network, granted.network)) +
    TimeoutGap(request, granted)
  }

  predicate ReasonFits(field: Field, reason: ChangeReason) {
    if field.RuntimeTimeout? then reason.TemplateTimeoutCap? || reason.PolicyTimeoutCap?
    else reason.OutsideTemplateCeiling? || reason.OutsidePolicyConstraint?
  }

  function GapOf(change: Change): Gap { Gap(change.field, change.requested, change.effective) }

  predicate ValidAuthorityChanges(request: Request, granted: Authority, actual: seq<Change>) {
    var expected := ExpectedGaps(request, granted);
    |actual| == |expected| &&
    forall i | 0 <= i < |actual| :: GapOf(actual[i]) == expected[i] && ReasonFits(actual[i].field, actual[i].reason)
  }
}
