/** Concurrent gateway calls that spend one request's model budget against the journal. Calls draw their
    identities from any source, interleave at every append, and may fail or give up at any point. */
module ModelBudget {
  import opened Evidence
  import opened Journal
  import CheckerSoundness

  /** How far one call has come; counting and charging happen under the budget lock. */
  datatype Stage =
    | Idle
    | Counted(id: string, count: nat)
    | Charged(id: string)
    | Permitted(id: string)
    | Tried(id: string)
    | Ended

  datatype Setting = Setting(reg: Registry, start: nat, ref: string, claim: string, limit: int)

  /** The journal, the budget lock, the calls, and the invocations sent to the provider so far. */
  datatype Shared = Shared(facts: seq<Fact>, lock: Option<nat>, calls: map<nat, Stage>, dispatched: seq<string>)

  function Units(set_: Setting, s: Shared): seq<Fact> { Reservations(s.facts, set_.ref) }

  function ViewOf(set_: Setting, s: Shared): seq<Fact> { ForRequestOf(s.facts, set_.ref) }

  predicate StageIs(s: Shared, t: nat, stage: Stage) { t in s.calls && s.calls[t] == stage }

  /** The journal admitted one more fact. */
  predicate Appended(set_: Setting, s: Shared, now: Shared, g: Fact) {
    now.facts == s.facts + [g] && Grown(set_.reg, set_.start, now.facts)
  }

  /** No unit was taken for this invocation, all units were taken under this limit, and one is left. */
  predicate Affordable(set_: Setting, s: Shared, id: string) {
    id != "" && 1 <= set_.limit <= 1000 && |Units(set_, s)| < set_.limit &&
    forall i | 0 <= i < |Units(set_, s)| :: Units(set_, s)[i].invocationID != id && Units(set_, s)[i].callLimit == set_.limit
  }

  predicate Count(set_: Setting, s: Shared, now: Shared, t: nat, id: string) {
    StageIs(s, t, Idle) && s.lock.None? && Affordable(set_, s, id) && now == s.(lock := Some(t), calls := s.calls[t := Counted(id, |Units(set_, s)|)])
  }

  predicate Charge(set_: Setting, s: Shared, now: Shared, t: nat, id: string, count: nat, g: Fact) {
    StageIs(s, t, Counted(id, count)) && s.lock == Some(t) && Bare(g).(id := "") == Unit(set_.ref, set_.claim, id, count + 1, set_.limit) &&
    Appended(set_, s, now, g) && now == s.(facts := now.facts, lock := None, calls := s.calls[t := Charged(id)])
  }

  predicate Permit(set_: Setting, s: Shared, now: Shared, t: nat, id: string, g: Fact) {
    StageIs(s, t, Charged(id)) && g.kind.ModelDecision? && g.operation.ModelInvoke? && g.result.Allow? && g.invocationID == id && g.requestRef == set_.ref &&
    Appended(set_, s, now, g) && now == s.(facts := now.facts, calls := s.calls[t := Permitted(id)])
  }

  predicate Attempt(set_: Setting, s: Shared, now: Shared, t: nat, id: string, g: Fact) {
    StageIs(s, t, Permitted(id)) && g.kind.ProviderAttempt? && g.operation.ModelInvoke? && g.invocationID == id && g.requestRef == set_.ref &&
    Appended(set_, s, now, g) && now == s.(facts := now.facts, calls := s.calls[t := Tried(id)])
  }

  predicate Dispatch(s: Shared, now: Shared, t: nat, id: string) {
    StageIs(s, t, Tried(id)) && now == s.(calls := s.calls[t := Ended], dispatched := s.dispatched + [id])
  }

  /** A call starts, or fails and gives up whatever it held. */
  predicate StartOrGiveUp(s: Shared, now: Shared, t: nat) {
    (t !in s.calls && now == s.(calls := s.calls[t := Idle])) ||
    (t in s.calls && now == s.(lock := if s.lock == Some(t) then None else s.lock, calls := s.calls[t := Ended]))
  }

  /** Any other fact is appended: of other requests, of other gateways, or of these calls' outcomes. */
  predicate Other(set_: Setting, s: Shared, now: Shared, g: Fact) {
    !(g.kind.ModelBudgetReservation? && g.requestRef == set_.ref) && Appended(set_, s, now, g) && now == s.(facts := now.facts)
  }

  datatype Step =
    | CountStep(t: nat, id: string) | ChargeStep(t: nat, id: string, count: nat, g: Fact) | PermitStep(t: nat, id: string, g: Fact)
    | AttemptStep(t: nat, id: string, g: Fact) | DispatchStep(t: nat, id: string) | StartStep(t: nat) | OtherStep(g: Fact)

  predicate Takes(set_: Setting, s: Shared, now: Shared, step: Step) {
    match step
    case CountStep(t, id) => Count(set_, s, now, t, id)
    case ChargeStep(t, id, count, g) => Charge(set_, s, now, t, id, count, g)
    case PermitStep(t, id, g) => Permit(set_, s, now, t, id, g)
    case AttemptStep(t, id, g) => Attempt(set_, s, now, t, id, g)
    case DispatchStep(t, id) => Dispatch(s, now, t, id)
    case StartStep(t) => StartOrGiveUp(s, now, t)
    case OtherStep(g) => Other(set_, s, now, g)
  }

  predicate Initial(set_: Setting, s: Shared) {
    Grown(set_.reg, set_.start, s.facts) && s.lock.None? && s.calls == map[] && s.dispatched == [] && Units(set_, s) == []
  }

  /** Every interleaving of the calls. */
  predicate Behaviour(set_: Setting, states: seq<Shared>, steps: seq<Step>) {
    |states| == |steps| + 1 && Initial(set_, states[0]) &&
    forall i | 0 <= i < |steps| :: Takes(set_, states[i], states[i + 1], steps[i])
  }

  // ---------------------------------------------------------------- what every interleaving keeps

  /** The call holds a unit of the budget for this invocation. */
  predicate Holds(stage: Stage, id: string) {
    (stage.Charged? && stage.id == id) || (stage.Permitted? && stage.id == id) || (stage.Tried? && stage.id == id)
  }

  /** An attempt of the invocation is recorded. */
  predicate AttemptedIn(facts: seq<Fact>, id: string) { id in CheckerSoundness.AttemptIDs(facts) }

  ghost predicate Evidenced(set_: Setting, s: Shared, stage: Stage) {
    match stage
    case Charged(id) => CheckerSoundness.Reserved(ViewOf(set_, s), id)
    case Permitted(id) => CheckerSoundness.Licensed(ViewOf(set_, s), id)
    case Tried(id) => CheckerSoundness.Licensed(ViewOf(set_, s), id) && AttemptedIn(ViewOf(set_, s), id)
    case _ => true
  }

  ghost predicate LockKept(set_: Setting, s: Shared) {
    forall t | t in s.calls && s.calls[t].Counted? ::
      s.lock == Some(t) && s.calls[t].count == |Units(set_, s)| && Affordable(set_, s, s.calls[t].id)
  }

  ghost predicate CallsKept(set_: Setting, s: Shared) {
    (forall t | t in s.calls :: Evidenced(set_, s, s.calls[t])) &&
    (forall t, id | t in s.calls && Holds(s.calls[t], id) :: CheckerSoundness.Reserved(ViewOf(set_, s), id) && id !in s.dispatched) &&
    (forall t, u, id | t in s.calls && u in s.calls && Holds(s.calls[t], id) && Holds(s.calls[u], id) :: t == u)
  }

  ghost predicate DispatchesKept(set_: Setting, s: Shared) {
    (forall i, j | 0 <= i < j < |s.dispatched| :: s.dispatched[i] != s.dispatched[j]) &&
    (forall id | id in s.dispatched :: CheckerSoundness.Licensed(ViewOf(set_, s), id) && AttemptedIn(ViewOf(set_, s), id) &&
                                       CheckerSoundness.Reserved(ViewOf(set_, s), id))
  }

  predicate OneLimit(units: seq<Fact>, limit: int) { forall i | 0 <= i < |units| :: units[i].callLimit == limit }

  ghost predicate Kept(set_: Setting, s: Shared) {
    Grown(set_.reg, set_.start, s.facts) && LockKept(set_, s) && CallsKept(set_, s) && DispatchesKept(set_, s) && OneLimit(Units(set_, s), set_.limit)
  }

  lemma ViewGrows(set_: Setting, s: Shared, now: Shared, g: Fact)
    requires Appended(set_, s, now, g)
    ensures ViewOf(set_, now) == if g.requestRef == set_.ref then ViewOf(set_, s) + [g] else ViewOf(set_, s)
    ensures Units(set_, now) == if g.kind.ModelBudgetReservation? && g.requestRef == set_.ref then Units(set_, s) + [g] else Units(set_, s)
  {
    hide Grown;
    assert now.facts[..|s.facts|] == s.facts;
  }

  /** Evidence of a call is never lost. */
  lemma EvidenceStays(view: seq<Fact>, g: Fact, id: string)
    ensures CheckerSoundness.Reserved(view, id) ==> CheckerSoundness.Reserved(view + [g], id)
    ensures CheckerSoundness.Licensed(view, id) ==> CheckerSoundness.Licensed(view + [g], id)
    ensures AttemptedIn(view, id) ==> AttemptedIn(view + [g], id)
  {
    assert (view + [g])[..|view|] == view;
  }

  /** What the appended fact itself is evidence of. */
  lemma EvidenceGrows(view: seq<Fact>, g: Fact)
    ensures g.kind.ModelBudgetReservation? ==> CheckerSoundness.Reserved(view + [g], g.invocationID)
    ensures g.kind.ModelDecision? && g.result.Allow? && CheckerSoundness.Reserved(view, g.invocationID) ==> CheckerSoundness.Licensed(view + [g], g.invocationID)
    ensures CheckerSoundness.ModelAttempt(g) ==> AttemptedIn(view + [g], g.invocationID)
  {
    assert (view + [g])[..|view|] == view;
  }

  /** Appending a fact keeps every call's evidence. */
  lemma AppendKeeps(set_: Setting, s: Shared, now: Shared, g: Fact)
    requires Appended(set_, s, now, g)
    ensures forall id :: CheckerSoundness.Reserved(ViewOf(set_, s), id) ==> CheckerSoundness.Reserved(ViewOf(set_, now), id)
    ensures forall id :: CheckerSoundness.Licensed(ViewOf(set_, s), id) ==> CheckerSoundness.Licensed(ViewOf(set_, now), id)
    ensures forall id :: AttemptedIn(ViewOf(set_, s), id) ==> AttemptedIn(ViewOf(set_, now), id)
  {
    hide Appended, CheckerSoundness.Reserved, CheckerSoundness.Licensed, AttemptedIn;
    ViewGrows(set_, s, now, g);
    forall id
      ensures CheckerSoundness.Reserved(ViewOf(set_, s), id) ==> CheckerSoundness.Reserved(ViewOf(set_, now), id)
      ensures CheckerSoundness.Licensed(ViewOf(set_, s), id) ==> CheckerSoundness.Licensed(ViewOf(set_, now), id)
      ensures AttemptedIn(ViewOf(set_, s), id) ==> AttemptedIn(ViewOf(set_, now), id)
    {
      EvidenceStays(ViewOf(set_, s), g, id);
    }
  }

  /** An invocation is recorded as reserved exactly when a unit of the budget names it. */
  lemma {:induction false} ReservedIsUnit(facts: seq<Fact>, ref: string, id: string)
    ensures CheckerSoundness.Reserved(ForRequestOf(facts, ref), id) <==> exists i | 0 <= i < |Reservations(facts, ref)| :: Reservations(facts, ref)[i].invocationID == id
  {
    if facts != [] {
      var before, f := facts[..|facts| - 1], facts[|facts| - 1];
      ReservedIsUnit(before, ref, id);
      var view := ForRequestOf(before, ref);
      assert (view + [f])[..|view|] == view;
      var units, all := Reservations(before, ref), Reservations(facts, ref);
      assert forall i | 0 <= i < |units| :: all[i] == units[i];
      if f.kind.ModelBudgetReservation? && f.requestRef == ref { assert all[|units|] == f; }
    }
  }

  lemma CountKeeps(set_: Setting, s: Shared, now: Shared, t: nat, id: string)
    requires Kept(set_, s) && Count(set_, s, now, t, id)
    ensures Kept(set_, now)
  {
    hide Grown, CheckerSoundness.Reserved, CheckerSoundness.Licensed, AttemptedIn, ForRequestOf, Reservations;
  }

  lemma ChargeKeeps(set_: Setting, s: Shared, now: Shared, t: nat, id: string, count: nat, g: Fact)
    requires Kept(set_, s) && Charge(set_, s, now, t, id, count, g)
    ensures Kept(set_, now)
  {
    hide Grown, CheckerSoundness.Reserved, CheckerSoundness.Licensed, AttemptedIn, ForRequestOf, Reservations;
    assert Bare(g).(id := "").invocationID == g.invocationID && Bare(g).(id := "").kind == g.kind && Bare(g).(id := "").requestRef == g.requestRef;
    assert Bare(g).(id := "").callLimit == g.callLimit;
    AppendKeeps(set_, s, now, g);
    ViewGrows(set_, s, now, g);
    EvidenceGrows(ViewOf(set_, s), g);
    ReservedIsUnit(s.facts, set_.ref, id);
  }

  lemma AppendKeepsDispatches(set_: Setting, s: Shared, now: Shared, g: Fact)
    requires DispatchesKept(set_, s) && Appended(set_, s, now, g) && now.dispatched == s.dispatched
    ensures DispatchesKept(set_, now)
  {
    hide Appended, CheckerSoundness.Reserved, CheckerSoundness.Licensed, AttemptedIn, ViewOf;
    AppendKeeps(set_, s, now, g);
  }

  lemma PermitKeeps(set_: Setting, s: Shared, now: Shared, t: nat, id: string, g: Fact)
    requires Kept(set_, s) && Permit(set_, s, now, t, id, g)
    ensures Kept(set_, now)
  {
    hide Grown, CheckerSoundness.Reserved, CheckerSoundness.Licensed, AttemptedIn, ForRequestOf, Reservations, DispatchesKept;
    AppendKeepsDispatches(set_, s, now, g);
    AppendKeeps(set_, s, now, g);
    ViewGrows(set_, s, now, g);
    EvidenceGrows(ViewOf(set_, s), g);
  }

  lemma AttemptKeeps(set_: Setting, s: Shared, now: Shared, t: nat, id: string, g: Fact)
    requires Kept(set_, s) && Attempt(set_, s, now, t, id, g)
    ensures Kept(set_, now)
  {
    hide Grown, CheckerSoundness.Reserved, CheckerSoundness.Licensed, AttemptedIn, ForRequestOf, Reservations, DispatchesKept;
    AppendKeepsDispatches(set_, s, now, g);
    AppendKeeps(set_, s, now, g);
    ViewGrows(set_, s, now, g);
    EvidenceGrows(ViewOf(set_, s), g);
  }

  lemma DispatchKeepsCalls(set_: Setting, s: Shared, now: Shared, t: nat, id: string)
    requires CallsKept(set_, s) && Dispatch(s, now, t, id) && ViewOf(set_, now) == ViewOf(set_, s)
    ensures CallsKept(set_, now)
  {
    hide CheckerSoundness.Reserved, CheckerSoundness.Licensed, AttemptedIn, ViewOf;
    assert Holds(s.calls[t], id);
    assert forall u | u in now.calls && u != t :: u in s.calls && now.calls[u] == s.calls[u];
    forall u, other | u in now.calls && Holds(now.calls[u], other)
      ensures CheckerSoundness.Reserved(ViewOf(set_, now), other) && other !in now.dispatched
    {
      assert Holds(s.calls[u], other);
      assert u != t && other != id;
    }
  }

  lemma DispatchAddsOne(set_: Setting, s: Shared, now: Shared, t: nat, id: string)
    requires CallsKept(set_, s) && DispatchesKept(set_, s) && Dispatch(s, now, t, id) && ViewOf(set_, now) == ViewOf(set_, s)
    ensures DispatchesKept(set_, now)
  {
    hide CheckerSoundness.Reserved, CheckerSoundness.Licensed, AttemptedIn, ViewOf;
    assert Holds(s.calls[t], id) && Evidenced(set_, s, s.calls[t]);
    assert forall i | 0 <= i < |s.dispatched| :: s.dispatched[i] in s.dispatched;
  }

  lemma DispatchKeeps(set_: Setting, s: Shared, now: Shared, t: nat, id: string)
    requires Kept(set_, s) && Dispatch(s, now, t, id)
    ensures Kept(set_, now)
  {
    hide Grown, CallsKept, DispatchesKept, ForRequestOf;
    DispatchKeepsCalls(set_, s, now, t, id);
    DispatchAddsOne(set_, s, now, t, id);
    assert Units(set_, now) == Units(set_, s);
  }


  lemma StartKeeps(set_: Setting, s: Shared, now: Shared, t: nat)
    requires Kept(set_, s) && StartOrGiveUp(s, now, t)
    ensures Kept(set_, now)
  {
    hide Grown, CheckerSoundness.Reserved, CheckerSoundness.Licensed, AttemptedIn, ForRequestOf;
    assert Units(set_, now) == Units(set_, s);
    LockReleased(set_, s, now, t);
    CallReset(set_, s, now, t);
  }

  lemma LockReleased(set_: Setting, s: Shared, now: Shared, t: nat)
    requires LockKept(set_, s) && StartOrGiveUp(s, now, t)
    ensures LockKept(set_, now)
  {
    hide Reservations;
    assert forall u | u in now.calls && u != t :: u in s.calls && now.calls[u] == s.calls[u];
  }

  lemma CallReset(set_: Setting, s: Shared, now: Shared, t: nat)
    requires CallsKept(set_, s) && StartOrGiveUp(s, now, t)
    ensures CallsKept(set_, now)
  {
    hide Reservations, CheckerSoundness.Reserved, CheckerSoundness.Licensed, AttemptedIn, ForRequestOf;
    assert forall u | u in now.calls && u != t :: u in s.calls && now.calls[u] == s.calls[u];
    assert now.calls[t].Idle? || now.calls[t].Ended?;
  }

  lemma OtherKeeps(set_: Setting, s: Shared, now: Shared, g: Fact)
    requires Kept(set_, s) && Other(set_, s, now, g)
    ensures Kept(set_, now)
  {
    hide Grown, CheckerSoundness.Reserved, CheckerSoundness.Licensed, AttemptedIn, ForRequestOf, Reservations;
    AppendKeeps(set_, s, now, g);
    ViewGrows(set_, s, now, g);
  }

  lemma StepKeeps(set_: Setting, s: Shared, now: Shared, step: Step)
    requires Kept(set_, s) && Takes(set_, s, now, step)
    ensures Kept(set_, now)
  {
    hide Kept, Count, Charge, Permit, Attempt, Dispatch, StartOrGiveUp, Other;
    match step
    case CountStep(t, id) => CountKeeps(set_, s, now, t, id);
    case ChargeStep(t, id, count, g) => ChargeKeeps(set_, s, now, t, id, count, g);
    case PermitStep(t, id, g) => PermitKeeps(set_, s, now, t, id, g);
    case AttemptStep(t, id, g) => AttemptKeeps(set_, s, now, t, id, g);
    case DispatchStep(t, id) => DispatchKeeps(set_, s, now, t, id);
    case StartStep(t) => StartKeeps(set_, s, now, t);
    case OtherStep(g) => OtherKeeps(set_, s, now, g);
  }

  lemma {:induction false} BehaviourKeeps(set_: Setting, states: seq<Shared>, steps: seq<Step>, i: nat)
    requires Behaviour(set_, states, steps) && i < |states|
    ensures Kept(set_, states[i])
  {
    hide Takes;
    if i == 0 {
      assert Kept(set_, states[0]);
    } else {
      BehaviourKeeps(set_, states, steps, i - 1);
      StepKeeps(set_, states[i - 1], states[i], steps[i - 1]);
    }
  }

  // ---------------------------------------------------------------- the budget is never exceeded

  function UnitIDs(units: seq<Fact>): set<string> { set i | 0 <= i < |units| :: units[i].invocationID }

  /** Distinct members of a list that all lie in a set are at most as many as the set. */
  lemma {:induction false} DistinctWithin(list: seq<string>, within: set<string>)
    requires (forall i, j | 0 <= i < j < |list| :: list[i] != list[j]) && forall i | 0 <= i < |list| :: list[i] in within
    ensures |list| <= |within|
  {
    if list != [] {
      var last := list[|list| - 1];
      DistinctWithin(list[..|list| - 1], within - {last});
    }
  }

  lemma {:induction false} UnitCount(units: seq<Fact>)
    ensures |UnitIDs(units)| <= |units|
  {
    if units == [] {
      assert UnitIDs(units) == {};
    } else {
      var n := |units| - 1;
      UnitCount(units[..n]);
      assert forall i | 0 <= i < n :: units[..n][i] == units[i];
      assert UnitIDs(units) == UnitIDs(units[..n]) + {units[n].invocationID};
    }
  }

  /** In every state of every interleaving: what was sent to the provider are distinct invocations, each with an
      Allow decision after its own reservation and with a recorded attempt; the reservations are numbered from
      one under the one limit of the request; and neither they nor the dispatches ever exceed it. */
  lemma BudgetIsNeverExceeded(set_: Setting, states: seq<Shared>, steps: seq<Step>, i: nat)
    requires Behaviour(set_, states, steps) && i < |states|
    ensures var s := states[i];
            DispatchesKept(set_, s) && UnitsNumbered(Units(set_, s)) && OneLimit(Units(set_, s), set_.limit) && |s.dispatched| <= |Units(set_, s)| &&
            (Units(set_, s) != [] ==> |Units(set_, s)| <= set_.limit <= 1000)
  {
    hide Takes, CheckerSoundness.Reserved, CheckerSoundness.Licensed, AttemptedIn, Reservations, ForRequestOf, Grown;
    BehaviourKeeps(set_, states, steps, i);
    var s := states[i];
    BudgetIsNumbered(set_.reg, set_.start, s.facts, set_.ref);
    var units := Units(set_, s);
    forall k | 0 <= k < |s.dispatched| ensures s.dispatched[k] in UnitIDs(units) {
      var id := s.dispatched[k];
      assert id in s.dispatched;
      ReservedIsUnit(s.facts, set_.ref, id);
      var j :| 0 <= j < |units| && units[j].invocationID == id;
    }
    DistinctWithin(s.dispatched, UnitIDs(units));
    UnitCount(units);
  }

  /** And the budget can be spent: whenever no other call holds the lock, a call with an identity of its own takes the next unit unless all
      are taken. */
  lemma SpendableToTheLimit(set_: Setting, states: seq<Shared>, steps: seq<Step>, i: nat, t: nat, id: string)
    requires Behaviour(set_, states, steps) && i < |states| && StageIs(states[i], t, Idle) && states[i].lock.None? && id != "" && 1 <= set_.limit <= 1000
    requires forall k | 0 <= k < |Units(set_, states[i])| :: Units(set_, states[i])[k].invocationID != id
    ensures var s, n := states[i], |Units(set_, states[i])|;
            n == set_.limit || (n < set_.limit && Takes(set_, s, s.(lock := Some(t), calls := s.calls[t := Counted(id, n)]), CountStep(t, id)))
  {
    hide Takes, Grown, CallsKept, DispatchesKept;
    BehaviourKeeps(set_, states, steps, i);
    BudgetIsNumbered(set_.reg, set_.start, states[i].facts, set_.ref);
    assert Takes(set_, states[i], states[i].(lock := Some(t), calls := states[i].calls[t := Counted(id, |Units(set_, states[i])|)]), CountStep(t, id)) <==>
           |Units(set_, states[i])| < set_.limit by { CountTakes(set_, states[i], t, id); }
  }

  lemma CountTakes(set_: Setting, s: Shared, t: nat, id: string)
    requires StageIs(s, t, Idle) && s.lock.None? && id != "" && 1 <= set_.limit <= 1000 && OneLimit(Units(set_, s), set_.limit)
    requires forall k | 0 <= k < |Units(set_, s)| :: Units(set_, s)[k].invocationID != id
    ensures Takes(set_, s, s.(lock := Some(t), calls := s.calls[t := Counted(id, |Units(set_, s)|)]), CountStep(t, id)) <==> |Units(set_, s)| < set_.limit
  {
  }
}
