/** The access advisor: concurrent callers ask for advice, and each task is put to the selector at most once. */
module Advisor {
  import opened Evidence
  import opened Resolver
  import Sets

  // ---------------------------------------------------------------- the single-flight protocol

  /** Who asks for advice on which task; `digest` stands for everything in the request but its access. */
  datatype Ask = Ask(key: string, digest: string)

  /** What the selection came to; its content is free. */
  datatype Answer = Answer(plan: string, err: string)

  datatype Entry = Entry(digest: string, done: Option<Answer>)

  datatype Caller =
    | Arrived(ask: Ask)
    | Aborting(ask: Ask)                  // holds a slot but will not select
    | Selecting(ask: Ask)                 // holds a slot, opened the entry
    | Settled(ask: Ask, answer: Answer)   // holds a slot, recorded its answer
    | Waiting(ask: Ask)
    | Refused(ask: Ask)
    | Answered(ask: Ask, answer: Answer)

  datatype Limits = Limits(maxRecords: nat, maxCalls: nat, maxConcurrent: nat)

  /** `selections` lists the keys put to the selector, in order. */
  datatype Desk = Desk(entries: map<string, Entry>, calls: nat, slots: set<nat>, callers: map<nat, Caller>, selections: seq<string>)

  function Capacity(limits: Limits): nat { if limits.maxConcurrent < 1 then 1 else limits.maxConcurrent }

  predicate Is(d: Desk, t: nat, caller: Caller) { t in d.callers && d.callers[t] == caller }

  predicate Arrive(d: Desk, now: Desk, t: nat, ask: Ask) { t !in d.callers && now == d.(callers := d.callers[t := Arrived(ask)]) }

  /** A known task is waited for; a different task under a known name is refused. */
  predicate Join(d: Desk, now: Desk, t: nat, ask: Ask) {
    Is(d, t, Arrived(ask)) && ask.key in d.entries &&
    now == d.(callers := d.callers[t := if d.entries[ask.key].digest == ask.digest then Waiting(ask) else Refused(ask)])
  }

  predicate Exhausted(limits: Limits, d: Desk) { |d.entries| >= limits.maxRecords || d.calls >= limits.maxCalls }

  predicate Refuse(limits: Limits, d: Desk, now: Desk, t: nat, ask: Ask) {
    Is(d, t, Arrived(ask)) && ask.key !in d.entries && (Exhausted(limits, d) || |d.slots| >= Capacity(limits)) &&
    now == d.(callers := d.callers[t := Refused(ask)])
  }

  /** A new task takes a slot and opens its entry under one lock. */
  predicate Open(limits: Limits, d: Desk, now: Desk, t: nat, ask: Ask) {
    Is(d, t, Arrived(ask)) && ask.key !in d.entries && !Exhausted(limits, d) && |d.slots| < Capacity(limits) &&
    now == d.(entries := d.entries[ask.key := Entry(ask.digest, None)], calls := d.calls + 1, slots := d.slots + {t},
              callers := d.callers[t := Selecting(ask)], selections := d.selections + [ask.key])
  }

  /** No identity could be drawn: the slot is given back after the lock. */
  predicate Abort(limits: Limits, d: Desk, now: Desk, t: nat, ask: Ask) {
    Is(d, t, Arrived(ask)) && ask.key !in d.entries && !Exhausted(limits, d) && |d.slots| < Capacity(limits) &&
    now == d.(slots := d.slots + {t}, callers := d.callers[t := Aborting(ask)])
  }

  predicate Settle(d: Desk, now: Desk, t: nat, ask: Ask, answer: Answer) {
    Is(d, t, Selecting(ask)) && ask.key in d.entries &&
    now == d.(entries := d.entries[ask.key := d.entries[ask.key].(done := Some(answer))], callers := d.callers[t := Settled(ask, answer)])
  }

  predicate Leave(d: Desk, now: Desk, t: nat) {
    t in d.callers && (d.callers[t].Settled? || d.callers[t].Aborting?) &&
    now == d.(slots := d.slots - {t},
              callers := d.callers[t := if d.callers[t].Settled? then Answered(d.callers[t].ask, d.callers[t].answer) else Refused(d.callers[t].ask)])
  }

  /** A waiting caller takes the recorded answer, or stops waiting. */
  predicate Wake(d: Desk, now: Desk, t: nat, ask: Ask) {
    Is(d, t, Waiting(ask)) && ask.key in d.entries &&
    ((d.entries[ask.key].done.Some? && now == d.(callers := d.callers[t := Answered(ask, d.entries[ask.key].done.value)])) ||
     now == d.(callers := d.callers[t := Refused(ask)]))
  }

  datatype Step =
    | ArriveStep(t: nat, ask: Ask) | JoinStep(t: nat, ask: Ask) | RefuseStep(t: nat, ask: Ask) | OpenStep(t: nat, ask: Ask) | AbortStep(t: nat, ask: Ask)
    | SettleStep(t: nat, ask: Ask, answer: Answer) | LeaveStep(t: nat) | WakeStep(t: nat, ask: Ask)

  predicate Takes(limits: Limits, d: Desk, now: Desk, step: Step) {
    match step
    case ArriveStep(t, ask) => Arrive(d, now, t, ask)
    case JoinStep(t, ask) => Join(d, now, t, ask)
    case RefuseStep(t, ask) => Refuse(limits, d, now, t, ask)
    case OpenStep(t, ask) => Open(limits, d, now, t, ask)
    case AbortStep(t, ask) => Abort(limits, d, now, t, ask)
    case SettleStep(t, ask, answer) => Settle(d, now, t, ask, answer)
    case LeaveStep(t) => Leave(d, now, t)
    case WakeStep(t, ask) => Wake(d, now, t, ask)
  }

  const EMPTY := Desk(map[], 0, {}, map[], [])

  predicate Behaviour(limits: Limits, desks: seq<Desk>, steps: seq<Step>) {
    |desks| == |steps| + 1 && desks[0] == EMPTY && forall i | 0 <= i < |steps| :: Takes(limits, desks[i], desks[i + 1], steps[i])
  }

  // ---------------------------------------------------------------- what every interleaving keeps

  predicate NoRepeat(list: seq<string>) { forall i, j | 0 <= i < j < |list| :: list[i] != list[j] }

  /** Each task is selected once: selections, entries and counted calls are the same thing. */
  ghost predicate SelectionsKept(limits: Limits, d: Desk) {
    NoRepeat(d.selections) && (forall k :: k in d.selections <==> k in d.entries) &&
    |d.selections| == d.calls == |d.entries| && d.calls <= limits.maxRecords && d.calls <= limits.maxCalls
  }

  predicate HoldsSlot(caller: Caller) { caller.Selecting? || caller.Settled? || caller.Aborting? }

  predicate SlotsKept(limits: Limits, d: Desk) {
    |d.slots| <= Capacity(limits) &&
    (forall t | t in d.callers && HoldsSlot(d.callers[t]) :: t in d.slots)
  }

  predicate HasAsk(d: Desk, caller: Caller) {
    caller.ask.key in d.entries && d.entries[caller.ask.key].digest == caller.ask.digest
  }

  predicate AnswersKept(d: Desk) {
    (forall t | t in d.callers && (d.callers[t].Selecting? || d.callers[t].Waiting?) :: HasAsk(d, d.callers[t])) &&
    (forall t | t in d.callers && d.callers[t].Selecting? :: d.entries[d.callers[t].ask.key].done.None?) &&
    (forall t, u | t in d.callers && u in d.callers && d.callers[t].Selecting? && d.callers[u].Selecting? && d.callers[t].ask.key == d.callers[u].ask.key :: t == u) &&
    (forall t | t in d.callers && (d.callers[t].Settled? || d.callers[t].Answered?) ::
       HasAsk(d, d.callers[t]) && d.entries[d.callers[t].ask.key].done == Some(d.callers[t].answer))
  }

  ghost predicate Kept(limits: Limits, d: Desk) { SelectionsKept(limits, d) && SlotsKept(limits, d) && AnswersKept(d) }

  lemma OneMore(list: seq<string>, key: string)
    requires NoRepeat(list) && key !in list
    ensures NoRepeat(list + [key]) && forall k :: k in list + [key] <==> k in list || k == key
  {
    assert forall i | 0 <= i < |list| :: list[i] in list;
  }

  lemma OpenKeepsSelections(limits: Limits, d: Desk, now: Desk, t: nat, ask: Ask)
    requires SelectionsKept(limits, d) && Open(limits, d, now, t, ask)
    ensures SelectionsKept(limits, now)
  {
    OneMore(d.selections, ask.key);
  }

  lemma SelectionsStay(limits: Limits, d: Desk, now: Desk, step: Step)
    requires SelectionsKept(limits, d) && Takes(limits, d, now, step)
    ensures SelectionsKept(limits, now)
  {
    match step
    case OpenStep(t, ask) => OpenKeepsSelections(limits, d, now, t, ask);
    case SettleStep(t, ask, answer) => assert now.entries.Keys == d.entries.Keys;
    case _ =>
  }

  /** One caller moves on; it holds a slot afterwards only if it is listed for one. */
  lemma SlotsMove(limits: Limits, d: Desk, now: Desk, t: nat)
    requires SlotsKept(limits, d) && t in now.callers && now.callers == d.callers[t := now.callers[t]]
    requires now.slots == d.slots || now.slots == d.slots - {t} || (now.slots == d.slots + {t} && |d.slots| < Capacity(limits))
    requires HoldsSlot(now.callers[t]) ==> t in now.slots || (now.slots == d.slots && t in d.callers && HoldsSlot(d.callers[t]))
    ensures SlotsKept(limits, now)
  {
    if now.slots == d.slots - {t} { Sets.SubsetSize(now.slots, d.slots); }
    assert forall u | u in now.callers && u != t :: u in d.callers && now.callers[u] == d.callers[u];
  }

  lemma SlotsStay(limits: Limits, d: Desk, now: Desk, step: Step)
    requires SlotsKept(limits, d) && Takes(limits, d, now, step)
    ensures SlotsKept(limits, now)
  {
    hide SlotsKept, Exhausted, Capacity;
    SlotsMove(limits, d, now, step.t);
  }

  lemma OpenKeepsAnswers(limits: Limits, d: Desk, now: Desk, t: nat, ask: Ask)
    requires AnswersKept(d) && Open(limits, d, now, t, ask)
    ensures AnswersKept(now)
  {
    assert forall u | u in now.callers && u != t :: u in d.callers && now.callers[u] == d.callers[u];
  }

  lemma SettleKeepsAnswers(d: Desk, now: Desk, t: nat, ask: Ask, answer: Answer)
    requires AnswersKept(d) && Settle(d, now, t, ask, answer)
    ensures AnswersKept(now)
  {
    assert forall u | u in now.callers && u != t :: u in d.callers && now.callers[u] == d.callers[u];
    assert forall k | k in now.entries && k != ask.key :: now.entries[k] == d.entries[k];
  }

  /** A step that opens and settles nothing leaves every recorded answer. */
  lemma MoveKeepsAnswers(d: Desk, now: Desk, t: nat)
    requires AnswersKept(d) && now.entries == d.entries && t in now.callers && now.callers == d.callers[t := now.callers[t]]
    requires var c := now.callers[t];
             !c.Selecting? && (c.Waiting? ==> HasAsk(d, c)) && !c.Settled? && (c.Answered? ==> HasAsk(d, c) && d.entries[c.ask.key].done == Some(c.answer))
    ensures AnswersKept(now)
  {
    assert forall u | u in now.callers && u != t :: u in d.callers && now.callers[u] == d.callers[u];
  }

  lemma AnswersStay(limits: Limits, d: Desk, now: Desk, step: Step)
    requires AnswersKept(d) && Takes(limits, d, now, step)
    ensures AnswersKept(now)
  {
    match step
    case OpenStep(t, ask) => OpenKeepsAnswers(limits, d, now, t, ask);
    case SettleStep(t, ask, answer) => SettleKeepsAnswers(d, now, t, ask, answer);
    case ArriveStep(t, _) => MoveKeepsAnswers(d, now, t);
    case JoinStep(t, _) => MoveKeepsAnswers(d, now, t);
    case RefuseStep(t, _) => MoveKeepsAnswers(d, now, t);
    case AbortStep(t, _) => MoveKeepsAnswers(d, now, t);
    case LeaveStep(t) => MoveKeepsAnswers(d, now, t);
    case WakeStep(t, _) => MoveKeepsAnswers(d, now, t);
  }

  lemma {:induction false} BehaviourKeeps(limits: Limits, desks: seq<Desk>, steps: seq<Step>, i: nat)
    requires Behaviour(limits, desks, steps) && i < |desks|
    ensures Kept(limits, desks[i])
  {
    hide Takes, SelectionsKept, SlotsKept, AnswersKept;
    if i == 0 {
      EmptyKept(limits);
    } else {
      BehaviourKeeps(limits, desks, steps, i - 1);
      SelectionsStay(limits, desks[i - 1], desks[i], steps[i - 1]);
      SlotsStay(limits, desks[i - 1], desks[i], steps[i - 1]);
      AnswersStay(limits, desks[i - 1], desks[i], steps[i - 1]);
    }
  }

  lemma EmptyKept(limits: Limits)
    ensures Kept(limits, EMPTY)
  {
  }

  lemma CallersMove(limits: Limits, d: Desk, now: Desk, step: Step)
    requires Takes(limits, d, now, step)
    ensures step.t in now.callers && now.callers == d.callers[step.t := now.callers[step.t]]
  {
    hide Exhausted, Capacity;
  }

  lemma EntriesStay(limits: Limits, d: Desk, now: Desk, step: Step)
    requires Takes(limits, d, now, step) && AnswersKept(d)
    ensures forall k | k in d.entries ::
              k in now.entries && now.entries[k].digest == d.entries[k].digest && (d.entries[k].done.Some? ==> now.entries[k] == d.entries[k])
  {
    hide Exhausted, Capacity;
    match step
    case SettleStep(t, ask, answer) => assert now.entries == d.entries[ask.key := d.entries[ask.key].(done := Some(answer))];
    case OpenStep(t, ask) => assert now.entries == d.entries[ask.key := Entry(ask.digest, None)];
    case _ => assert now.entries == d.entries;
  }

  /** One step moves one caller; entries stay, with their digests and the answers recorded for them. */
  lemma OneMoves(limits: Limits, d: Desk, now: Desk, step: Step)
    requires Takes(limits, d, now, step) && AnswersKept(d)
    ensures forall u | u in d.callers :: u in now.callers && (u != step.t ==> now.callers[u] == d.callers[u])
    ensures forall u | u in now.callers && u != step.t :: u in d.callers
    ensures forall k | k in d.entries ::
              k in now.entries && now.entries[k].digest == d.entries[k].digest && (d.entries[k].done.Some? ==> now.entries[k] == d.entries[k])
  {
    hide Takes, AnswersKept;
    CallersMove(limits, d, now, step);
    EntriesStay(limits, d, now, step);
  }

  lemma ArrivedIsRefused(limits: Limits, d: Desk, now: Desk, t: nat, ask: Ask)
    requires Join(d, now, t, ask) || Refuse(limits, d, now, t, ask)
    ensures t in d.callers && t in now.callers && d.callers[t] == Arrived(ask) && (now.callers[t].Refused? ==> now.callers[t].ask == ask && RefusedFor(limits, d, d.callers[t]))
  {
  }

  lemma HolderIsRefused(limits: Limits, d: Desk, now: Desk, t: nat)
    requires Leave(d, now, t)
    ensures t in d.callers && t in now.callers && (now.callers[t].Refused? ==> now.callers[t].ask == d.callers[t].ask && RefusedFor(limits, d, d.callers[t]))
  {
  }

  lemma WaiterIsRefused(limits: Limits, d: Desk, now: Desk, t: nat, ask: Ask)
    requires Wake(d, now, t, ask)
    ensures t in d.callers && t in now.callers && d.callers[t] == Waiting(ask) && (now.callers[t].Refused? ==> now.callers[t].ask == ask && RefusedFor(limits, d, d.callers[t]))
  {
  }

  /** A caller is refused by this step: its name belongs to another task, a limit is reached, it drew no identity, or it gave up
      waiting. */
  lemma StepRefuses(limits: Limits, d: Desk, now: Desk, step: Step, t: nat)
    requires Takes(limits, d, now, step) && t in now.callers && now.callers[t].Refused? && !(t in d.callers && d.callers[t].Refused?)
    ensures t in d.callers && RefusedFor(limits, d, d.callers[t]) && d.callers[t].ask == now.callers[t].ask
  {
    hide RefusedFor, Exhausted, Capacity, Join, Refuse, Leave, Wake;
    assert t == step.t by { CallersMove(limits, d, now, step); }
    match step
    case JoinStep(_, ask) => ArrivedIsRefused(limits, d, now, t, ask);
    case RefuseStep(_, ask) => ArrivedIsRefused(limits, d, now, t, ask);
    case LeaveStep(_) => HolderIsRefused(limits, d, now, t);
    case WakeStep(_, ask) => WaiterIsRefused(limits, d, now, t, ask);
    case _ =>
  }

  predicate RefusedFor(limits: Limits, d: Desk, caller: Caller) {
    match caller
    case Arrived(ask) =>
      if ask.key in d.entries then d.entries[ask.key].digest != ask.digest
      else |d.entries| >= limits.maxRecords || d.calls >= limits.maxCalls || |d.slots| >= limits.maxConcurrent
    case Aborting(ask) => true
    case Waiting(ask) => ask.key in d.entries
    case _ => false
  }

  /** Every refused caller was refused at some moment for one of these reasons, and was not answered. */
  lemma {:induction false} RefusalsHaveReasons(limits: Limits, desks: seq<Desk>, steps: seq<Step>, i: nat, t: nat)
    requires Behaviour(limits, desks, steps) && i < |desks| && t in desks[i].callers && desks[i].callers[t].Refused?
    ensures exists j | 0 <= j < i :: t in desks[j].callers && desks[j].callers[t].ask == desks[i].callers[t].ask && RefusedFor(limits, desks[j], desks[j].callers[t])
  {
    hide Takes, RefusedFor;
    var before, now := desks[i - 1], desks[i];
    if t in before.callers && before.callers[t].Refused? {
      RefusalsHaveReasons(limits, desks, steps, i - 1, t);
      BehaviourKeeps(limits, desks, steps, i - 1);
      StaysRefused(limits, before, now, steps[i - 1], t);
    } else {
      StepRefuses(limits, before, now, steps[i - 1], t);
    }
  }

  lemma RefusedIsIdle(limits: Limits, d: Desk, now: Desk, step: Step)
    requires Takes(limits, d, now, step)
    ensures !(step.t in d.callers && d.callers[step.t].Refused?)
  {
    hide Exhausted, Capacity;
  }

  lemma StaysRefused(limits: Limits, d: Desk, now: Desk, step: Step, t: nat)
    requires Takes(limits, d, now, step) && t in d.callers && d.callers[t].Refused?
    ensures t in now.callers && now.callers[t] == d.callers[t]
  {
    hide Takes;
    CallersMove(limits, d, now, step);
    RefusedIsIdle(limits, d, now, step);
  }

  /** What may become of a caller whose very question is already known. */
  predicate Follows(d: Desk, t: nat, ask: Ask) {
    ask.key in d.entries && d.entries[ask.key].digest == ask.digest && t in d.callers && d.callers[t].ask == ask &&
    (d.callers[t].Arrived? || d.callers[t].Waiting? || d.callers[t].Answered? || d.callers[t].Refused?)
  }

  lemma FollowsOn(limits: Limits, d: Desk, now: Desk, step: Step, t: nat, ask: Ask)
    requires Takes(limits, d, now, step) && AnswersKept(d) && Follows(d, t, ask)
    ensures Follows(now, t, ask) && (d.callers[t].Arrived? ==> now.callers[t].Arrived? || now.callers[t].Waiting?)
  {
    OneMoves(limits, d, now, step);
  }

  /** A caller who asks what was already asked never selects: it waits for that answer, and ends refused only by giving up a
      wait. */
  lemma {:induction false} EqualQuestionWaits(limits: Limits, desks: seq<Desk>, steps: seq<Step>, j: nat, i: nat, t: nat, ask: Ask)
    requires Behaviour(limits, desks, steps) && j <= i < |desks| && Is(desks[j], t, Arrived(ask))
    requires ask.key in desks[j].entries && desks[j].entries[ask.key].digest == ask.digest
    ensures Follows(desks[i], t, ask) && !HoldsSlot(desks[i].callers[t])
    ensures desks[i].callers[t].Arrived? || exists k | j < k <= i :: Is(desks[k], t, Waiting(ask))
    decreases i
  {
    hide Takes;
    if j < i {
      EqualQuestionWaits(limits, desks, steps, j, i - 1, t, ask);
      BehaviourKeeps(limits, desks, steps, i - 1);
      FollowsOn(limits, desks[i - 1], desks[i], steps[i - 1], t, ask);
      if desks[i - 1].callers[t].Arrived? && desks[i].callers[t].Waiting? { assert Is(desks[i], t, Waiting(ask)); }
    }
  }

  function Selectors(d: Desk): set<nat> { set t | t in d.callers && d.callers[t].Selecting? }

  /** In every interleaving: no task is put to the selector twice, no more tasks than the limits allow are put to
      it at all or at once, and callers who asked the same thing and were answered got the same answer. */
  lemma SingleFlight(limits: Limits, desks: seq<Desk>, steps: seq<Step>, i: nat)
    requires Behaviour(limits, desks, steps) && i < |desks|
    ensures var d := desks[i];
            (forall a, b | 0 <= a < b < |d.selections| :: d.selections[a] != d.selections[b]) &&
            |d.selections| <= limits.maxCalls && |d.selections| <= limits.maxRecords && |Selectors(d)| <= Capacity(limits) &&
            (forall t, u | t in d.callers && u in d.callers && d.callers[t].Answered? && d.callers[u].Answered? &&
                           d.callers[t].ask.key == d.callers[u].ask.key ::
               d.callers[t].ask.digest == d.callers[u].ask.digest && d.callers[t].answer == d.callers[u].answer)
  {
    hide Takes;
    BehaviourKeeps(limits, desks, steps, i);
    Sets.SubsetSize(Selectors(desks[i]), desks[i].slots);
  }

  // ---------------------------------------------------------------- keys

  const NUL := '\0'

  function Key(team: string, subject: string, name: string): string { team + [NUL] + subject + [NUL] + name }

  lemma CutAtNul(a: string, b: string, x: string, y: string)
    requires NUL !in a && NUL !in b && a + [NUL] + x == b + [NUL] + y
    ensures a == b && x == y
  {
    var s, t := a + [NUL] + x, b + [NUL] + y;
    assert forall i | 0 <= i < |a| :: s[i] == a[i] != NUL;
    assert forall i | 0 <= i < |b| :: t[i] == b[i] != NUL;
    assert s[|a|] == NUL && t[|b|] == NUL;
    assert s[..|a|] == a && t[..|b|] == b && s[|a| + 1..] == x && t[|b| + 1..] == y;
  }

  /** Callers and request names that contain no separator never share a key. */
  lemma KeyInjective(team: string, subject: string, name: string, team2: string, subject2: string, name2: string)
    requires NUL !in team && NUL !in subject && NUL !in team2 && NUL !in subject2
    requires Key(team, subject, name) == Key(team2, subject2, name2)
    ensures team == team2 && subject == subject2 && name == name2
  {
    assert Key(team, subject, name) == team + [NUL] + (subject + [NUL] + name);
    assert Key(team2, subject2, name2) == team2 + [NUL] + (subject2 + [NUL] + name2);
    CutAtNul(team, team2, subject + [NUL] + name, subject2 + [NUL] + name2);
    CutAtNul(subject, subject2, name, name2);
  }

  // ---------------------------------------------------------------- advice

  datatype Profile = Profile(id: string, access: Access)

  /** `described` stands for the checks on the guide's version, size and profile descriptions. */
  datatype Guide = Guide(described: bool, profiles: seq<Profile>)

  datatype Descriptor = Descriptor(operation: string, scope: string)

  datatype Choice = Choice(profileID: string, explanation: nat, questions: seq<nat>)

  datatype Advice = Failed | Clarification | Ready(profileID: string, request: Request)

  const NO_ACCESS := Access([], [], "", [], [])

  /** A ceiling that covers a guide's value: listed, or a scope under one terminal wildcard. */
  predicate WithinScope(ceilings: seq<string>, v: string) {
    v in ceilings || exists i | 0 <= i < |ceilings| :: ScopeCeilingFits(ceilings[i]) && Covers(ceilings[i], v) && ceilings[i] != v
  }

  predicate AllIn(values: seq<string>, ceiling: seq<string>) { forall i | 0 <= i < |values| :: values[i] in ceiling }

  predicate ProfileWithin(a: Access, c: Ceiling) {
    ValidRequestList(a.tools) && ValidRequestList(a.resources) && ValidRequestList(a.memory) && ValidRequestList(a.network) &&
    |a.tools| <= 64 && |a.resources| <= 64 && |a.memory| <= 64 && |a.network| <= 64 &&
    AllIn(a.tools, c.tools) && AllConcrete(a.resources) && (forall i | 0 <= i < |a.resources| :: WithinScope(c.resources, a.resources[i])) &&
    AllIn(a.memory, c.memory) && AllIn(a.network, c.network) && (a.model != "" ==> a.model in c.models)
  }

  predicate ValidAccessGuide(g: Guide, c: Ceiling) {
    g.described && 1 <= |g.profiles| <= 16 && (forall i, j | 0 <= i < j < |g.profiles| :: g.profiles[i].id != g.profiles[j].id) &&
    forall i | 0 <= i < |g.profiles| :: ProfileWithin(g.profiles[i].access, c)
  }

  /** Some installed descriptor offers the operation on one of the profile's scopes. */
  predicate Installed(operation: string, a: Access, catalog: seq<Descriptor>) {
    exists i | 0 <= i < |catalog| :: catalog[i].operation == operation && catalog[i].scope in a.resources
  }

  predicate Available(a: Access, catalog: seq<Descriptor>) { forall i | 0 <= i < |a.tools| :: Installed(a.tools[i], a, catalog) }

  /** The request with the profile's access in place of its own. */
  function Suggested(r: Request, a: Access, defaultModel: string): Request {
    r.(access := if a.model == "" then a.(model := defaultModel) else a)
  }

  predicate Bounded(choice: Choice) {
    choice.explanation <= 1024 && |choice.questions| <= 4 && |choice.profileID| <= 64 && forall i | 0 <= i < |choice.questions| :: choice.questions[i] <= 256
  }

  /** What a choice comes to, said about the guide's profiles. */
  ghost predicate Advises(r: Request, g: Guide, defaultModel: string, catalog: seq<Descriptor>, choice: Option<Choice>, p: Profile, advice: Advice) {
    choice.Some? && Bounded(choice.value) && choice.value.profileID == p.id && p.id != "" && choice.value.questions == [] && p in g.profiles &&
    Available(p.access, catalog) && ValidClaimRequest(Suggested(r, p.access, defaultModel)) && advice == Ready(p.id, Suggested(r, p.access, defaultModel))
  }

  method FindProfile(g: Guide, id: string) returns (profile: Option<Profile>)
    ensures profile.Some? ==> profile.value in g.profiles && profile.value.id == id
    ensures profile.None? ==> forall p | p in g.profiles :: p.id != id
  {
    profile := None;
    for i := 0 to |g.profiles|
      invariant profile.Some? ==> profile.value in g.profiles && profile.value.id == id
      invariant profile.None? ==> forall j | 0 <= j < i :: g.profiles[j].id != id
    {
      if g.profiles[i].id == id { profile := Some(g.profiles[i]); }
    }
  }

  method CatalogOffers(a: Access, catalog: seq<Descriptor>) returns (available: bool)
    ensures available <==> Available(a, catalog)
  {
    available := true;
    for i := 0 to |a.tools|
      invariant available <==> forall j | 0 <= j < i :: Installed(a.tools[j], a, catalog)
    {
      var matched := false;
      for k := 0 to |catalog|
        invariant matched <==> exists m | 0 <= m < k :: catalog[m].operation == a.tools[i] && catalog[m].scope in a.resources
      {
        if catalog[k].operation == a.tools[i] && catalog[k].scope in a.resources { matched := true; }
      }
      assert matched <==> Installed(a.tools[i], a, catalog);
      available := available && matched;
    }
  }

  /** Turns the selector's choice, if it made one in time, into advice. */
  method Advise(r: Request, g: Guide, defaultModel: string, catalog: seq<Descriptor>, choice: Option<Choice>) returns (advice: Advice)
    ensures advice.Ready? ==> exists p :: Advises(r, g, defaultModel, catalog, choice, p, advice)
    ensures (exists p, a :: Advises(r, g, defaultModel, catalog, choice, p, a)) && (forall i, j | 0 <= i < j < |g.profiles| :: g.profiles[i].id != g.profiles[j].id) ==>
              advice.Ready?
    ensures advice.Clarification? <==> choice.Some? && Bounded(choice.value) && (choice.value.profileID == "" || choice.value.questions != [])
  {
    if choice.None? { return Advice.Failed; }
    var c := choice.value;
    if c.explanation > 1024 || |c.questions| > 4 || |c.profileID| > 64 { return Advice.Failed; }
    for i := 0 to |c.questions|
      invariant forall j | 0 <= j < i :: c.questions[j] <= 256
    {
      if c.questions[i] > 256 { return Advice.Failed; }
    }
    if c.profileID == "" || c.questions != [] { return Clarification; }
    var profile := FindProfile(g, c.profileID);
    if profile.None? { return Advice.Failed; }
    var available := CatalogOffers(profile.value.access, catalog);
    if !available { return Advice.Failed; }
    var request := Suggested(r, profile.value.access, defaultModel);
    if !ValidClaimRequest(request) { return Advice.Failed; }
    advice := Ready(profile.value.id, request);
    assert Advises(r, g, defaultModel, catalog, choice, profile.value, advice);
  }

  // ---------------------------------------------------------------- advice can be granted

  /** Every requested value was granted. */
  predicate RequiredGranted(a: Access, g: Authority) {
    AllIn(a.tools, g.tools) && AllIn(a.resources, g.resources) && AllIn(a.memory, g.memory) && AllIn(a.network, g.network) &&
    (a.model == "" || a.model == g.model)
  }

  method CheckRequired(a: Access, g: Option<Authority>) returns (ok: bool)
    ensures ok <==> g.Some? && RequiredGranted(a, g.value)
  {
    if g.None? { return false; }
    var tools := CheckList(a.tools, g.value.tools);
    var resources := CheckList(a.resources, g.value.resources);
    var memory := CheckList(a.memory, g.value.memory);
    var network := CheckList(a.network, g.value.network);
    ok := tools && resources && memory && network && (a.model == "" || a.model == g.value.model);
  }

  method CheckList(want: seq<string>, got: seq<string>) returns (ok: bool)
    ensures ok <==> AllIn(want, got)
  {
    for i := 0 to |want|
      invariant forall j | 0 <= j < i :: want[j] in got
    {
      var found := false;
      for k := 0 to |got|
        invariant found <==> want[i] in got[..k]
      {
        if got[k] == want[i] { found := true; }
      }
      assert got[..|got|] == got;
      if !found { return false; }
    }
    ok := true;
  }

  /** Ready advice changes nothing of the task but its access, and stays inside the template's ceiling. */
  lemma AdviceKeepsIntent(r: Request, t: Template, g: Guide, defaultModel: string, catalog: seq<Descriptor>, choice: Option<Choice>, p: Profile, advice: Advice)
    requires ValidAccessGuide(g, t.ceiling) && Advises(r, g, defaultModel, catalog, choice, p, advice)
    ensures advice.Ready? && advice.request.(access := NO_ACCESS) == r.(access := NO_ACCESS)
    ensures ProfileWithin(advice.request.access.(model := p.access.model), t.ceiling)
    ensures advice.request.access.model == (if p.access.model == "" then defaultModel else p.access.model)
  {
    var i :| 0 <= i < |g.profiles| && g.profiles[i] == p;
    hide ProfileWithin;
    assert ProfileWithin(g.profiles[i].access, t.ceiling);
    assert advice.request.access.(model := p.access.model) == p.access;
  }

  lemma ScopeIsAllowed(ceilings: seq<string>, v: string)
    requires WithinScope(ceilings, v)
    ensures Allows(Scopes(ceilings), v)
  {
    if v in ceilings {
      var i :| 0 <= i < |ceilings| && ceilings[i] == v;
      assert Covers(ceilings[i], v);
    }
  }

  /** If ready advice then resolves, and the policy caps no list of it, everything advised is granted. */
  lemma AdviceIsGranted(r: Request, t: Template, caps: Caps, g: Guide, defaultModel: string, catalog: seq<Descriptor>, choice: Option<Choice>, p: Profile, advice: Advice)
    requires ValidAccessGuide(g, t.ceiling) && Advises(r, g, defaultModel, catalog, choice, p, advice)
    requires caps.tools.None? && caps.resources.None? && caps.memory.None? && Grantable(advice.request, t, caps, true)
    ensures RequiredGranted(advice.request.access, GrantOf(advice.request, t.ceiling, caps))
  {
    hide GrantOf, Grantable, Advises, ValidAccessGuide, Allows, WithinScope, InOrder, Distinct, AllConcrete, ValidRequestList;
    AdviceKeepsIntent(r, t, g, defaultModel, catalog, choice, p, advice);
    GrantIsExactMeet(advice.request, t, caps);
    CeilingIsTimed(advice.request, t, caps);
    GrantScalars(advice.request, t.ceiling, caps);
    var a := advice.request.access;
    forall i | 0 <= i < |a.resources| ensures a.resources[i] in GrantOf(advice.request, t.ceiling, caps).resources {
      ScopeIsAllowed(t.ceiling.resources, a.resources[i]);
    }
  }

  lemma CeilingIsTimed(r: Request, t: Template, caps: Caps)
    requires Grantable(r, t, caps, true)
    ensures t.ceiling.maxTimeout.Some?
  {
  }
}
