/** Recovery after a crash: it reads each half-written record from the durable store, verifies that the worker
    is released, and finishes the record. The store and the backend may fail at any step; a failed commit may
    or may not have reached the store. */
module Recovery {
  import opened Evidence
  import opened Checker
  import opened RecoveryEvidence
  import Numbering
  import CheckerSoundness
  import Protocol

  datatype Err = Nil | RecoveryRequired | StoreFailed

  /** What recovery asked of the backend, for which worker, what was answered, and the last position the journal had
      given by then. A refused revocation has no answer; `gone` says that the failure was only that the worker is
      already released. */
  datatype Call =
    | Restore(claim: string, identity: Identity, ok: bool, at: nat)
    | Revoke(identity: Identity, answer: Option<Protocol.NetworkEvidence>, at: nat)
    | Terminate(identity: Identity, ok: bool, gone: bool, at: nat)
    | Cleanup(identity: Identity, result: Identity, ok: bool, released: bool, at: nat)

  /** The backend as recovery sees it. */
  class Backend {
    const supportsNetwork: bool
    ghost var calls: seq<Call>

    constructor (supportsNetwork: bool)
      ensures calls == []
    {
      this.supportsNetwork := supportsNetwork;
      calls := [];
    }

    method RestoreForCleanup(claim: string, identity: Identity, ghost store: DurableStore) returns (ok: bool)
      modifies this
      ensures calls == old(calls) + [Restore(claim, identity, ok, store.last)]
    {
      ok := *;
      calls := calls + [Restore(claim, identity, ok, store.last)];
    }

    method RevokeNetwork(identity: Identity, ghost store: DurableStore) returns (evidence: Protocol.NetworkEvidence, ok: bool)
      modifies this
      ensures calls == old(calls) + [Revoke(identity, if ok then Some(evidence) else None, store.last)]
    {
      evidence, ok := *, *;
      calls := calls + [Revoke(identity, if ok then Some(evidence) else None, store.last)];
    }

    method Terminate(identity: Identity, ghost store: DurableStore) returns (ok: bool, gone: bool)
      modifies this
      ensures calls == old(calls) + [Call.Terminate(identity, ok, gone, store.last)]
    {
      ok, gone := *, *;
      calls := calls + [Call.Terminate(identity, ok, gone, store.last)];
    }

    method Cleanup(identity: Identity, ghost store: DurableStore) returns (result: Identity, ok: bool, released: bool)
      modifies this
      ensures calls == old(calls) + [Call.Cleanup(identity, result, ok, released, store.last)]
    {
      result, ok, released := *, *, *;
      calls := calls + [Call.Cleanup(identity, result, ok, released, store.last)];
    }
  }

  const SEQUENCES: nat := 0x1_0000_0000_0000_0000

  class DurableStore {
    var pending: map<string, Stored>
    var finished: map<string, View>
    var last: nat
    ghost var failed: bool     // the store refused, lost or could not read something, or the context of recovery ended

    /** Positions are global: no pending record is ahead of the last one given. */
    ghost predicate Valid() reads this`pending, this`last {
      forall ref | ref in pending :: Numbering.LastSequence(pending[ref].view.facts) <= last
    }

    /** Nothing but the pending record of `ref` differs from before. */
    twostate predicate OnlyRecord(ref: string) reads this {
      ref in pending && pending - {ref} == old(pending) - {ref} && finished == old(finished)
    }

    constructor ()
      ensures Valid() && pending == map[] && finished == map[] && !failed
    {
      pending, finished, last, failed := map[], map[], 0, false;
    }

    method CheckWriter() returns (ok: bool)
      modifies this`failed
      ensures failed == (old(failed) || !ok)
    {
      ok := *;
      failed := failed || !ok;
    }

    /** Whether the context of recovery is still live. */
    method Live() returns (ok: bool)
      modifies this`failed
      ensures failed == (old(failed) || !ok)
    {
      ok := *;
      failed := failed || !ok;
    }

    /** Reads the last position given. */
    method LastSequence() returns (ok: bool)
      modifies this`failed
      ensures failed == (old(failed) || !ok)
    {
      ok := *;
      failed := failed || !ok;
    }

    /** Commits one fact, and the state that goes with it. */
    method Append(ref: string, f: Fact, state: Option<State>) returns (ok: bool)
      requires Valid() && ref in pending && f.sequence == last + 1
      modifies this`pending, this`last, this`failed
      ensures Valid() && old(last) <= last <= f.sequence && failed == (old(failed) || !ok)
      ensures var st := old(pending)[ref];
              var next := st.(view := st.view.(facts := st.view.facts + [f], state := if state.Some? then state else st.view.state));
              pending == old(pending)[ref := next] || (!ok && pending == old(pending))
    {
      ok := *;
      failed := failed || !ok;
      var reached: bool := *;
      if ok || reached {
        var st := pending[ref];
        pending := pending[ref := st.(view := st.view.(facts := st.view.facts + [f], state := if state.Some? then state else st.view.state))];
        last := f.sequence;
      }
    }

    /** Publishes a finished view in place of the pending record. */
    method Finish(ref: string, view: View) returns (ok: bool)
      requires Valid() && ref in pending
      modifies this`pending, this`finished, this`failed
      ensures Valid() && failed == (old(failed) || !ok)
      ensures (pending == old(pending) - {ref} && finished == old(finished)[ref := view]) || (!ok && pending == old(pending) && finished == old(finished))
    {
      ok := *;
      failed := failed || !ok;
      var reached: bool := *;
      if ok || reached {
        pending, finished := pending - {ref}, finished[ref := view];
      }
    }
  }

  // ---------------------------------------------------------------- what recovery may do to a record

  predicate HasClaim(st: Stored) { st.view.state.Some? && st.view.state.value.claim.Some? }

  function ClaimIDOf(st: Stored): string { if HasClaim(st) then st.view.state.value.claim.value.id else "" }

  /** The worker of a record. */
  function WorkerOf(st: Stored): Identity {
    if HasClaim(st) && st.view.state.value.claim.value.identity.Some? then st.view.state.value.claim.value.identity.value else Identity("", "", "")
  }

  predicate ValidNetworkRelease(e: Protocol.NetworkEvidence, claim: string, identity: Identity) {
    e.claim == claim && e.identity == identity && e.state.RevokedState? && (e.level.Configured? || e.level.Simulated?)
  }

  datatype Ask = AskRestore | AskRevoke | AskTerminate | AskCleanup

  function AskOf(call: Call): Ask {
    match call
    case Restore(_, _, _, _) => AskRestore
    case Revoke(_, _, _) => AskRevoke
    case Terminate(_, _, _, _) => AskTerminate
    case Cleanup(_, _, _, _, _) => AskCleanup
  }

  /** The backend was asked for a prefix of `plan`, and for this worker only. */
  predicate Asked(before: seq<Call>, now: seq<Call>, plan: seq<Ask>, worker: Identity) {
    before <= now && |now| <= |before| + |plan| &&
    forall i | |before| <= i < |now| :: AskOf(now[i]) == plan[i - |before|] && now[i].identity == worker
  }

  /** The backend answered that it did what it was asked, for this worker; a worker already gone counts as stopped. */
  predicate Grants(call: Call, claim: string, worker: Identity) {
    call.identity == worker &&
    match call
    case Restore(c, _, ok, _) => ok && c == claim
    case Revoke(_, answer, _) =>
      answer.Some? && answer.value.claim == claim && answer.value.identity == worker && answer.value.state.RevokedState? &&
      (answer.value.level.Configured? || answer.value.level.Simulated?)
    case Terminate(_, ok, gone, _) => ok || gone
    case Cleanup(_, result, ok, released, _) => ok && released && result == worker
  }

  /** All of `plan` was asked for this worker and granted. */
  predicate Granted(before: seq<Call>, now: seq<Call>, plan: seq<Ask>, claim: string, worker: Identity) {
    Asked(before, now, plan, worker) && |now| == |before| + |plan| && forall i | |before| <= i < |now| :: Grants(now[i], claim, worker)
  }

  /** Recovery stops only because the store failed or has no position left, or because the last call of the backend was not granted. */
  predicate Excused(err: Err, failed: bool, last: nat, before: seq<Call>, now: seq<Call>, claim: string, worker: Identity) {
    match err
    case Nil => true
    case StoreFailed => failed || last + 1 >= SEQUENCES
    case RecoveryRequired => |before| < |now| && !Grants(now[|now| - 1], claim, worker)
  }

  /** Operations that report an answer of the backend. */
  predicate Reports(op: Op) { op.NetworkRevoked? || op.NetworkRevocationFailed? || Termination(op) || CleanupOp(op) }

  /** The call was answered as the operation reports. */
  predicate Confirms(call: Call, claim: string, worker: Identity, op: Op) {
    call.identity == worker &&
    match op
    case NetworkRevoked => call.Revoke? && Grants(call, claim, worker)
    case NetworkRevocationFailed => call.Revoke? && !Grants(call, claim, worker)
    case TerminateSucceeded => call.Terminate? && call.ok
    case TerminateFailed => call.Terminate? && !call.ok && call.gone
    case CleanupSucceeded => call.Cleanup? && Grants(call, claim, worker)
    case _ => false
  }

  predicate Warrants(call: Call, claim: string, worker: Identity, f: Fact) { call.at < f.sequence && Confirms(call, claim, worker, f.operation) }

  /** Every fact added after `earlier` that reports an answer of the backend follows a call, from number `from` on, that
      was answered so for this worker. */
  predicate Warranted(earlier: seq<Fact>, facts: seq<Fact>, claim: string, worker: Identity, calls: seq<Call>, from: nat) {
    forall i | |earlier| <= i < |facts| && facts[i].kind.Runtime? && Reports(facts[i].operation) ::
      exists j | from <= j < |calls| :: Warrants(calls[j], claim, worker, facts[i])
  }

  predicate Backed(st: Stored, now: Stored, calls: seq<Call>, from: nat) {
    Warranted(st.view.facts, now.view.facts, ClaimIDOf(st), WorkerOf(st), calls, from)
  }

  /** One fact was added, after the position `last`. */
  predicate Adds(st: Stored, now: Stored, op: Op, last: nat) {
    var n := |st.view.facts|;
    |now.view.facts| == n + 1 && now.view.facts[..n] == st.view.facts && now.view.facts[n].operation == op && now.view.facts[n].sequence > last
  }

  lemma AddedIsBacked(st: Stored, now: Stored, op: Op, last: nat, calls: seq<Call>, from: nat)
    requires now == st || Adds(st, now, op, last)
    requires Reports(op) ==> from < |calls| && Confirms(calls[|calls| - 1], ClaimIDOf(st), WorkerOf(st), op) && calls[|calls| - 1].at <= last
    ensures Backed(st, now, calls, from)
  {
    if now != st && Reports(op) {
      var f := now.view.facts[|st.view.facts|];
      assert Warrants(calls[|calls| - 1], ClaimIDOf(st), WorkerOf(st), f);
    }
  }

  lemma BackedGrows(st: Stored, now: Stored, calls: seq<Call>, from: nat, more: seq<Call>, start: nat)
    requires Backed(st, now, calls, from) && calls <= more && start <= from
    ensures Backed(st, now, more, start)
  {
    hide Warrants, ClaimIDOf, WorkerOf;
    forall i | |st.view.facts| <= i < |now.view.facts| && now.view.facts[i].kind.Runtime? && Reports(now.view.facts[i].operation)
      ensures exists j | start <= j < |more| :: Warrants(more[j], ClaimIDOf(st), WorkerOf(st), now.view.facts[i])
    {
      var j :| from <= j < |calls| && Warrants(calls[j], ClaimIDOf(st), WorkerOf(st), now.view.facts[i]);
      assert more[j] == calls[j];
    }
  }

  lemma BackedTrans(a: Stored, b: Stored, c: Stored, calls: seq<Call>, from: nat)
    requires Evolved(a, b) && Evolved(b, c) && Backed(a, b, calls, from) && Backed(b, c, calls, from)
    ensures Backed(a, c, calls, from) && ClaimIDOf(b) == ClaimIDOf(a) && WorkerOf(b) == WorkerOf(a)
  {
    hide Warrants;
    forall i | |a.view.facts| <= i < |c.view.facts| && c.view.facts[i].kind.Runtime? && Reports(c.view.facts[i].operation)
      ensures exists j | from <= j < |calls| :: Warrants(calls[j], ClaimIDOf(a), WorkerOf(a), c.view.facts[i])
    {
      if i < |b.view.facts| { assert c.view.facts[i] == b.view.facts[i]; }
    }
  }

  /** Two stretches of calls, one after the other. */
  lemma AskedTrans(a: seq<Call>, b: seq<Call>, c: seq<Call>, p: seq<Ask>, q: seq<Ask>, claim: string, worker: Identity)
    requires Granted(a, b, p, claim, worker) && Asked(b, c, q, worker)
    ensures Asked(a, c, p + q, worker)
    ensures Granted(b, c, q, claim, worker) ==> Granted(a, c, p + q, claim, worker)
  {
    hide Grants, AskOf;
    assert c[..|b|] == b && c[..|a|] == b[..|a|] == a;
    forall i | |a| <= i < |c|
      ensures AskOf(c[i]) == (p + q)[i - |a|] && c[i].identity == worker
      ensures Granted(b, c, q, claim, worker) ==> Grants(c[i], claim, worker)
    {
      if i < |b| {
        assert c[i] == b[i] && (p + q)[i - |a|] == p[i - |a|];
      } else {
        assert (p + q)[i - |a|] == q[i - |b|];
      }
    }
  }

  lemma NothingAsked(before: seq<Call>, plan: seq<Ask>, worker: Identity)
    ensures Asked(before, before, plan, worker)
    ensures forall claim :: Granted(before, before, [], claim, worker)
  {
  }

  lemma StepGranted(before: seq<Call>, call: Call, claim: string, worker: Identity)
    requires call.identity == worker
    ensures Asked(before, before + [call], [AskOf(call)], worker)
    ensures Grants(call, claim, worker) ==> Granted(before, before + [call], [AskOf(call)], claim, worker)
  {
  }

  /** The operation of the last fact that ended the run. */
  function LastTerminal(facts: seq<Fact>): Op {
    if facts == [] then NoOp else
    var f := facts[|facts| - 1];
    if f.kind.Runtime? && (f.operation.Succeeded? || f.operation.Failed? || f.operation.Expired? || f.operation.Cancelled? || f.operation.StartFailed? ||
                           f.operation.NetworkActivationFailed?)
    then f.operation else LastTerminal(facts[..|facts| - 1])
  }

  lemma {:induction false} ScanEnds(facts: seq<Fact>, ref: string)
    requires ScanFacts(facts, ref).Some?
    ensures ScanFacts(facts, ref).value.kind == LastTerminal(facts)
  {
    if facts != [] { ScanEnds(facts[..|facts| - 1], ref); }
  }

  lemma OneMoreEnds(facts: seq<Fact>, f: Fact)
    ensures LastTerminal(facts + [f]) == if f.kind.Runtime? && ScanTerminal(f.operation) then f.operation else LastTerminal(facts)
  {
    assert (facts + [f])[..|facts|] == facts;
  }

  /** Facts are only added, a claim keeps its identity and its terminal phase, and only the failure of an interrupted claim is recorded as
      its end. */
  predicate Evolved(before: Stored, now: Stored) {
    before.view.facts <= now.view.facts && now.staged == before.staged && now.view.request == before.view.request &&
    HasClaim(before) && HasClaim(now) &&
    var old_, new_ := before.view.state.value.claim.value, now.view.state.value.claim.value;
    new_.id == old_.id && new_.identity == old_.identity && (new_.phase == old_.phase || (!Terminal(old_.phase) && new_.phase.Failed?)) &&
    LastTerminal(now.view.facts) == if new_.phase == old_.phase then LastTerminal(before.view.facts) else Op.Failed
  }

  ghost function CursorOf(st: Stored): Cursor {
    if st.view.request.Some? && st.view.state.Some? && Fold(SubjectOf(st.view), st.view.facts).Some? then Fold(SubjectOf(st.view), st.view.facts).value else START
  }

  /** One recovery fact for `op` was added. */
  ghost predicate Extended(st: Stored, op: Op, next: Stored) {
    HasClaim(st) &&
    exists f :: next == WithFact(st, op, f) && RecoveryFact(st.view.state.value, op, f) && NextStamp(st.view.facts, f)
  }

  lemma ExtendedEvolves(st: Stored, op: Op, next: Stored)
    requires Extended(st, op, next) && (op.Failed? ==> !Terminal(st.view.state.value.claim.value.phase)) && (ScanTerminal(op) ==> op.Failed?)
    ensures Evolved(st, next) && (op.Failed? ==> LastTerminal(next.view.facts).Failed? && next.view.state.value.claim.value.phase.Failed?)
  {
    hide RecoveryFact, NextStamp, LastTerminal;
    var f :| next == WithFact(st, op, f) && RecoveryFact(st.view.state.value, op, f) && NextStamp(st.view.facts, f);
    RecoveryFields(st.view.state.value, op, f);
    OneMoreEnds(st.view.facts, f);
  }

  lemma EvolvedTrans(a: Stored, b: Stored, c: Stored)
    requires Evolved(a, b) && Evolved(b, c)
    ensures Evolved(a, c)
  {
  }

  /** What one recovery fact does to the flags of a cursor. */
  lemma RecoveryFlags(t: Subject, was: Subject, c: Cursor, op: Op, f: Fact)
    requires f.kind.Runtime? && f.operation == op && MayRecover(was, c, op)
    ensures var d := Next(t, c, f);
            d.life.terminal == (c.life.terminal || op.Failed?) && d.life.terminalOp == (if op.Failed? then op else c.life.terminalOp) &&
            d.life.terminated == (c.life.terminated || Termination(op)) && d.life.cleaned == (c.life.cleaned || CleanupOp(op)) &&
            d.net.releaseStarted == (c.net.releaseStarted || op.NetworkRevocationAttempt?) &&
            d.net.releasePending == (op.NetworkRevocationAttempt? || (c.net.releasePending && !NetworkRevocation(op))) &&
            d.net.activationRecorded == c.net.activationRecorded
  {
    hide NextCalls, NextLog, ReleaseDone;
  }

  /** The cursor after one recovery fact. */
  lemma ExtendedCursor(st: Stored, ref: string, op: Op, next: Stored)
    requires Extended(st, op, next) && Underway(st, ref) && MayRecover(SubjectOf(st.view), CursorOf(st), op)
    ensures Underway(next, ref)
    ensures var c, d := CursorOf(st), CursorOf(next);
            d.life.terminal == (c.life.terminal || op.Failed?) && d.life.terminalOp == (if op.Failed? then op else c.life.terminalOp) &&
            d.life.terminated == (c.life.terminated || Termination(op)) && d.life.cleaned == (c.life.cleaned || CleanupOp(op)) &&
            d.net.releaseStarted == (c.net.releaseStarted || op.NetworkRevocationAttempt?) &&
            d.net.releasePending == (op.NetworkRevocationAttempt? || (c.net.releasePending && !NetworkRevocation(op))) &&
            d.net.activationRecorded == c.net.activationRecorded
    ensures RequiresNetwork(SubjectOf(next.view)) == RequiresNetwork(SubjectOf(st.view))
  {
    hide Fold, StepOk, ValidPreamble, Coherent, StagedFits, Next, RecoveryFact, NextStamp, MayRecover, Termination, CleanupOp, NetworkRevocation;
    var f :| next == WithFact(st, op, f) && RecoveryFact(st.view.state.value, op, f) && NextStamp(st.view.facts, f);
    RecoveryStep(st, ref, op, f);
    RecoveryFields(st.view.state.value, op, f);
    RecoveryFlags(SubjectOf(next.view), SubjectOf(st.view), CursorOf(st), op, f);
  }

  lemma {:induction false} ScanRefused(facts: seq<Fact>, ref: string, n: nat)
    requires n <= |facts| && ScanFacts(facts[..n], ref).None?
    ensures ScanFacts(facts, ref).None?
    decreases |facts| - n
  {
    if n == |facts| {
      assert facts[..n] == facts;
    } else {
      assert facts[..n + 1][..n] == facts[..n];
      ScanRefused(facts, ref, n + 1);
    }
  }

  /** Reads the lifecycle of a half-written record; a foreign fact, an outcome or a failed cleanup stops recovery. */
  method ScanRecord(facts: seq<Fact>, ref: string) returns (scan: Option<Scan>)
    ensures scan == ScanFacts(facts, ref)
  {
    var terminal, terminated, cleaned, kind := false, false, false, NoOp;
    for i := 0 to |facts|
      invariant ScanFacts(facts[..i], ref) == Some(Scan(terminal, kind, terminated, cleaned))
    {
      var fact := facts[i];
      assert facts[..i + 1][..i] == facts[..i];
      if fact.requestRef != ref || fact.kind.RunOutcome? || (fact.kind.Runtime? && fact.operation.CleanupFailed?) {
        ScanRefused(facts, ref, i + 1);
        return None;
      }
      if !fact.kind.Runtime? { continue; }
      if ScanTerminal(fact.operation) {
        terminal, kind := true, fact.operation;
      } else if Termination(fact.operation) {
        terminated := true;
      } else if fact.operation.CleanupSucceeded? {
        cleaned := true;
      }
    }
    assert facts[..|facts|] == facts;
    scan := Some(Scan(terminal, kind, terminated, cleaned));
  }


  /** A record that recovery has started on. */
  predicate Started(st: Stored) { HasClaim(st) && st.view.state.value.claim.value.identity.Some? && st.view.requestRef == st.view.state.value.requestRef }

  /** One line of text for a network fact; its wording is free. */
  method Note(op: Op) returns (note: string)
    ensures NetworkRevocation(op) ==> PlainReason(note)
  {
    note := *;
    if !PlainReason(note) {
      note := "-";
      assert note[0] == '-';
    }
  }

  method Clock() returns (time: int)
    ensures time != 0
  {
    time := *;
    if time == 0 { time := 1; }
  }

  function RuntimeFact(st: Stored, op: Op, sequence: nat, time: int, note: string): Fact
    requires Started(st)
  {
    var state, claim := st.view.state.value, st.view.state.value.claim.value;
    BLANK_FACT.(id := Numbering.FactID(sequence), sequence := sequence, timestamp := time, kind := Kind.Runtime,
                requestRef := st.view.requestRef, claimID := claim.id, identity := claim.identity, operation := op,
                code := RecoveryCode(op), reason := note, policyRef := Some(state.policyRef),
                target := if NetworkRevocation(op) then "work-network" else "")
  }

  lemma RuntimeFactExtends(st: Stored, op: Op, sequence: nat, time: int, note: string)
    requires Started(st) && time != 0 && sequence > Numbering.LastSequence(st.view.facts) && (NetworkRevocation(op) ==> PlainReason(note))
    ensures Extended(st, op, WithFact(st, op, RuntimeFact(st, op, sequence, time, note)))
  {
    hide Numbering.FactID, Numbering.LastSequence, PlainReason;
    var f := RuntimeFact(st, op, sequence, time, note);
    assert RecoveryFact(st.view.state.value, op, f) && NextStamp(st.view.facts, f);
  }

  /** Records one runtime fact together with the advanced state. */
  method RecordRuntime(store: DurableStore, ref: string, st: Stored, op: Op) returns (next: Stored, err: Err)
    requires store.Valid() && ref in store.pending && store.pending[ref] == st && Started(st)
    requires (op.Failed? ==> !Terminal(st.view.state.value.claim.value.phase)) && (ScanTerminal(op) ==> op.Failed?)
    modifies store`pending, store`last, store`failed
    ensures store.Valid() && store.OnlyRecord(ref) && (err.Nil? || err.StoreFailed?)
    ensures (old(store.failed) ==> store.failed) && (err.StoreFailed? ==> store.failed || store.last + 1 >= SEQUENCES)
    ensures Started(store.pending[ref]) && Evolved(st, store.pending[ref])
    ensures if err.Nil? then store.pending[ref] == next && Extended(st, op, next) else store.pending[ref] == st || Extended(st, op, store.pending[ref])
    ensures store.pending[ref] == st || Adds(st, store.pending[ref], op, old(store.last))
  {
    hide RuntimeFact, Extended, Evolved, Adds, WithFact, PlainReason, Numbering.FactID;
    EvolvedSelf(st);
    if store.last + 1 >= SEQUENCES { return st, StoreFailed; }
    var note := Note(op);
    var time := Clock();
    var f := RuntimeFact(st, op, store.last + 1, time, note);
    RuntimeFactExtends(st, op, store.last + 1, time, note);
    RuntimeFactNumber(st, op, store.last + 1, time, note);
    FactIsAdded(st, op, f, store.last);
    next := WithFact(st, op, f);
    ExtendedEvolves(st, op, next);
    var ok := store.Append(ref, f, next.view.state);
    err := if ok then Nil else StoreFailed;
  }

  lemma FactIsAdded(st: Stored, op: Op, f: Fact, last: nat)
    requires Started(st) && f.operation == op && f.sequence > last
    ensures Adds(st, WithFact(st, op, f), op, last) && Started(WithFact(st, op, f)) && WithFact(st, op, f).view.state.Some?
    ensures WithFact(st, op, f) == st.(view := st.view.(facts := st.view.facts + [f], state := WithFact(st, op, f).view.state))
  {
  }

  lemma RuntimeFactNumber(st: Stored, op: Op, sequence: nat, time: int, note: string)
    requires Started(st)
    ensures RuntimeFact(st, op, sequence, time, note).sequence == sequence && RuntimeFact(st, op, sequence, time, note).operation == op
  {
  }

  // ---------------------------------------------------------------- the stages of one recovery

  function RevokePlan(governed: bool): seq<Ask> { if governed then [AskRevoke] else [] }

  function ReleasePlan(governed: bool): seq<Ask> { RevokePlan(governed) + [AskTerminate, AskCleanup] }

  /** The claim has ended, and `kind` is the last operation that ended its run. */
  predicate Ended(st: Stored, kind: Op) {
    HasClaim(st) && Terminal(st.view.state.value.claim.value.phase) && LastTerminal(st.view.facts) == kind
  }

  lemma StaysEnded(st: Stored, now: Stored, kind: Op)
    requires Ended(st, kind) && Evolved(st, now)
    ensures Ended(now, kind)
  {
    hide LastTerminal;
  }

  /** An interrupted claim fails first. If even that cannot be recorded, the restored worker is still taken offline. */
  method FailInterrupted(store: DurableStore, backend: Backend, ref: string, st: Stored, cleaned: bool, governed: bool) returns (next: Stored, err: Err)
    requires store.Valid() && ref in store.pending && store.pending[ref] == st && Started(st) && !Terminal(st.view.state.value.claim.value.phase)
    modifies store`pending, store`last, store`failed, backend
    ensures store.Valid() && store.OnlyRecord(ref) && Started(store.pending[ref]) && Evolved(st, store.pending[ref])
    ensures (old(store.failed) ==> store.failed) && Excused(err, store.failed, store.last, old(backend.calls), backend.calls, ClaimIDOf(st), WorkerOf(st))
    ensures err.Nil? ==> store.pending[ref] == next && backend.calls == old(backend.calls) && Ended(next, Op.Failed)
    ensures cleaned ==> backend.calls == old(backend.calls)
    ensures Asked(old(backend.calls), backend.calls, ReleasePlan(governed), WorkerOf(st))
    ensures Backed(st, store.pending[ref], backend.calls, |old(backend.calls)|)
    ensures Underway(st, ref) && !CursorOf(st).life.terminal ==>
              Underway(store.pending[ref], ref) &&
              (err.Nil? ==> CursorOf(next).life.terminal && CursorOf(next).life.terminalOp.Failed? &&
                            CursorOf(next).life.terminated == CursorOf(st).life.terminated && CursorOf(next).life.cleaned == CursorOf(st).life.cleaned &&
                            ReleaseDone(SubjectOf(next.view), CursorOf(next)) == ReleaseDone(SubjectOf(st.view), CursorOf(st)))
  {
    hide Extended, Underway, CursorOf, Evolved, Backed, Adds;
    ghost var last, before := store.last, backend.calls;
    next, err := RecordRuntime(store, ref, st, Op.Failed);
    FailKeeps(st, ref, store.pending[ref]);
    if err.Nil? { ExtendedEvolves(st, Op.Failed, next); }
    AddedIsBacked(st, store.pending[ref], Op.Failed, last, before, |before|);
    if err.Nil? || cleaned { return; }
    var writer := store.CheckWriter();
    if !writer { return; }
    var identity := st.view.state.value.claim.value.identity.value;
    if governed {
      var _, _ := backend.RevokeNetwork(identity, store);
    } else {
      var _, _ := backend.Terminate(identity, store);
      var _, _, _ := backend.Cleanup(identity, store);
    }
    BackedGrows(st, store.pending[ref], before, |before|, backend.calls, |before|);
  }

  lemma FailKeeps(st: Stored, ref: string, now: Stored)
    requires now == st || Extended(st, Op.Failed, now)
    ensures Underway(st, ref) && !CursorOf(st).life.terminal ==> Underway(now, ref)
    ensures Extended(st, Op.Failed, now) && Underway(st, ref) && !CursorOf(st).life.terminal ==>
              CursorOf(now).life.terminal && CursorOf(now).life.terminalOp.Failed? &&
              CursorOf(now).life.terminated == CursorOf(st).life.terminated && CursorOf(now).life.cleaned == CursorOf(st).life.cleaned &&
              ReleaseDone(SubjectOf(now.view), CursorOf(now)) == ReleaseDone(SubjectOf(st.view), CursorOf(st))
  {
    hide Extended, Underway, CursorOf;
    if Extended(st, Op.Failed, now) && Underway(st, ref) && !CursorOf(st).life.terminal { ExtendedCursor(st, ref, Op.Failed, now); }
  }

  /** The record is under way, its claim has ended and its worker is not cleaned up. */
  ghost predicate Releasable(st: Stored, ref: string) {
    Underway(st, ref) && CursorOf(st).life.terminal && !CursorOf(st).life.cleaned
  }

  predicate ReleaseOp(op: Op) { NetworkRevocation(op) || Termination(op) }

  /** A release fact keeps the record releasable. */
  lemma ReleaseKeeps(st: Stored, ref: string, op: Op, now: Stored)
    requires ReleaseOp(op) && (now == st || Extended(st, op, now)) && Releasable(st, ref)
    requires op.NetworkRevoked? || op.NetworkRevocationFailed? ==> CursorOf(st).net.releasePending
    requires Termination(op) ==> !CursorOf(st).life.terminated
    ensures Releasable(now, ref) && CursorOf(now).life.terminalOp == CursorOf(st).life.terminalOp
    ensures RequiresNetwork(SubjectOf(now.view)) == RequiresNetwork(SubjectOf(st.view))
    ensures CursorOf(now).net.activationRecorded == CursorOf(st).net.activationRecorded
    ensures Extended(st, op, now) ==>
              CursorOf(now).life.terminated == (CursorOf(st).life.terminated || Termination(op)) &&
              CursorOf(now).net.releaseStarted == (CursorOf(st).net.releaseStarted || op.NetworkRevocationAttempt?) &&
              CursorOf(now).net.releasePending == (op.NetworkRevocationAttempt? || (CursorOf(st).net.releasePending && !NetworkRevocation(op)))
  {
    hide Extended, Underway, CursorOf;
    if Extended(st, op, now) { ExtendedCursor(st, ref, op, now); }
  }

  /** Network authority is released under the label of recovery; an unconfirmed release stops recovery. */
  method ReleaseNetwork(store: DurableStore, backend: Backend, ref: string, st: Stored) returns (next: Stored, err: Err)
    requires store.Valid() && ref in store.pending && store.pending[ref] == st && Started(st)
    modifies store`pending, store`last, store`failed, backend
    ensures store.Valid() && store.OnlyRecord(ref) && Started(store.pending[ref]) && Evolved(st, store.pending[ref])
    ensures (old(store.failed) ==> store.failed) && Excused(err, store.failed, store.last, old(backend.calls), backend.calls, ClaimIDOf(st), WorkerOf(st))
    ensures err.Nil? ==> store.pending[ref] == next
    ensures Asked(old(backend.calls), backend.calls, [AskRevoke], WorkerOf(st))
    ensures err.Nil? ==> Granted(old(backend.calls), backend.calls, [AskRevoke], ClaimIDOf(st), WorkerOf(st))
    ensures Backed(st, store.pending[ref], backend.calls, |old(backend.calls)|)
    ensures Releasable(st, ref) ==>
              Releasable(store.pending[ref], ref) &&
              (err.Nil? ==> CursorOf(next).life.terminated == CursorOf(st).life.terminated && CursorOf(next).life.terminalOp == CursorOf(st).life.terminalOp &&
                            ReleaseDone(SubjectOf(next.view), CursorOf(next)))
  {
    hide Extended, Underway, CursorOf, Evolved, Releasable, Backed, Adds, Asked, Granted, Grants, ClaimIDOf, WorkerOf, ReleaseDone, LastTerminal, Confirms;
    RecordNamesWorker(st);
    ghost var last, before := store.last, backend.calls;
    var attempted, attemptErr := RecordRuntime(store, ref, st, NetworkRevocationAttempt);
    if Releasable(st, ref) { ReleaseKeeps(st, ref, NetworkRevocationAttempt, store.pending[ref]); }
    AddedIsBacked(st, store.pending[ref], NetworkRevocationAttempt, last, before, |before|);
    var claim := st.view.state.value.claim.value;
    var evidence, ok := backend.RevokeNetwork(claim.identity.value, store);
    BackedGrows(st, store.pending[ref], before, |before|, backend.calls, |before|);
    StepGranted(before, backend.calls[|before|], claim.id, claim.identity.value);
    if !attemptErr.Nil? { return attempted, attemptErr; }
    SameWorker(st, attempted);
    next, err := ReportRevocation(store, backend, ref, attempted, evidence, ok, |before|);
    EvolvedTrans(st, attempted, store.pending[ref]);
    BackedTrans(st, attempted, store.pending[ref], backend.calls, |before|);
  }

  /** Records whether the revocation that was just asked for is confirmed; one that is not stops recovery. */
  method ReportRevocation(store: DurableStore, backend: Backend, ref: string, st: Stored, evidence: Protocol.NetworkEvidence, ok: bool, ghost from: nat)
    returns (next: Stored, err: Err)
    requires store.Valid() && ref in store.pending && store.pending[ref] == st && Started(st)
    requires from < |backend.calls| && backend.calls[|backend.calls| - 1].at <= store.last
    requires var call := backend.calls[|backend.calls| - 1];
             call.Revoke? && call.identity == WorkerOf(st) && call.answer == if ok then Some(evidence) else None
    modifies store`pending, store`last, store`failed
    ensures store.Valid() && store.OnlyRecord(ref) && Started(store.pending[ref]) && Evolved(st, store.pending[ref])
    ensures (old(store.failed) ==> store.failed) && (err.StoreFailed? ==> store.failed || store.last + 1 >= SEQUENCES)
    ensures err.RecoveryRequired? ==> !Grants(backend.calls[|backend.calls| - 1], ClaimIDOf(st), WorkerOf(st))
    ensures err.Nil? ==> store.pending[ref] == next && Grants(backend.calls[|backend.calls| - 1], ClaimIDOf(st), WorkerOf(st))
    ensures Backed(st, store.pending[ref], backend.calls, from)
    ensures Releasable(st, ref) && CursorOf(st).net.releasePending && (RequiresNetwork(SubjectOf(st.view)) || CursorOf(st).net.activationRecorded ==> CursorOf(st).net.releaseStarted) ==>
              Releasable(store.pending[ref], ref) &&
              (err.Nil? ==> CursorOf(next).life.terminated == CursorOf(st).life.terminated && CursorOf(next).life.terminalOp == CursorOf(st).life.terminalOp &&
                            ReleaseDone(SubjectOf(next.view), CursorOf(next)))
  {
    hide Extended, Underway, CursorOf, Evolved, Releasable, Backed, Adds;
    var claim := st.view.state.value.claim.value;
    if !ok || !ValidNetworkRelease(evidence, claim.id, claim.identity.value) {
      next, err := RecordAnswer(store, backend, ref, st, NetworkRevocationFailed, from);
      if Releasable(st, ref) && CursorOf(st).net.releasePending { ReleaseKeeps(st, ref, NetworkRevocationFailed, store.pending[ref]); }
      if err.Nil? { err := RecoveryRequired; }
      return;
    }
    next, err := RecordAnswer(store, backend, ref, st, NetworkRevoked, from);
    if Releasable(st, ref) && CursorOf(st).net.releasePending { ReleaseKeeps(st, ref, NetworkRevoked, store.pending[ref]); }
  }

  lemma ReportEndsNothing(op: Op)
    requires Reports(op)
    ensures !ScanTerminal(op) && !op.Failed?
  {
  }

  /** Records what the last call was answered. */
  method RecordAnswer(store: DurableStore, backend: Backend, ref: string, st: Stored, op: Op, ghost from: nat) returns (next: Stored, err: Err)
    requires store.Valid() && ref in store.pending && store.pending[ref] == st && Started(st) && Reports(op)
    requires from < |backend.calls| && Confirms(backend.calls[|backend.calls| - 1], ClaimIDOf(st), WorkerOf(st), op) &&
             backend.calls[|backend.calls| - 1].at <= store.last
    modifies store`pending, store`last, store`failed
    ensures store.Valid() && store.OnlyRecord(ref) && Started(store.pending[ref]) && Evolved(st, store.pending[ref])
    ensures (err.Nil? || err.StoreFailed?) && (old(store.failed) ==> store.failed) && (err.StoreFailed? ==> store.failed || store.last + 1 >= SEQUENCES)
    ensures if err.Nil? then store.pending[ref] == next && Extended(st, op, next) else store.pending[ref] == st || Extended(st, op, store.pending[ref])
    ensures Backed(st, store.pending[ref], backend.calls, from)
  {
    hide Extended, Evolved, Backed, Confirms, Adds, Reports, ScanTerminal, LastTerminal, Grants;
    ghost var last := store.last;
    ReportEndsNothing(op);
    next, err := RecordRuntime(store, ref, st, op);
    AddedIsBacked(st, store.pending[ref], op, last, backend.calls, from);
  }

  /** Stops the worker; a worker that is already gone counts as stopped, but the failure is recorded. */
  method StopWorker(store: DurableStore, backend: Backend, ref: string, st: Stored, terminated: bool) returns (next: Stored, err: Err)
    requires store.Valid() && ref in store.pending && store.pending[ref] == st && Started(st)
    modifies store`pending, store`last, store`failed, backend
    ensures store.Valid() && store.OnlyRecord(ref) && Started(store.pending[ref]) && Evolved(st, store.pending[ref])
    ensures (old(store.failed) ==> store.failed) && Excused(err, store.failed, store.last, old(backend.calls), backend.calls, ClaimIDOf(st), WorkerOf(st))
    ensures err.Nil? ==> store.pending[ref] == next
    ensures Asked(old(backend.calls), backend.calls, [AskTerminate], WorkerOf(st))
    ensures err.Nil? ==> Granted(old(backend.calls), backend.calls, [AskTerminate], ClaimIDOf(st), WorkerOf(st))
    ensures Backed(st, store.pending[ref], backend.calls, |old(backend.calls)|)
    ensures Releasable(st, ref) && terminated == CursorOf(st).life.terminated && ReleaseDone(SubjectOf(st.view), CursorOf(st)) ==>
              Releasable(store.pending[ref], ref) &&
              (err.Nil? ==> CursorOf(next).life.terminated && CursorOf(next).life.terminalOp == CursorOf(st).life.terminalOp &&
                            ReleaseDone(SubjectOf(next.view), CursorOf(next)))
  {
    hide Extended, Underway, CursorOf, Evolved, Releasable, Backed, Asked, Granted;
    EvolvedSelf(st);
    next, err := st, Nil;
    ghost var before := backend.calls;
    var ok, gone := backend.Terminate(WorkerOf(st), store);
    NothingAdded(st, backend.calls, |before|);
    StepGranted(before, backend.calls[|before|], ClaimIDOf(st), WorkerOf(st));
    if !ok && !gone { return st, RecoveryRequired; }
    if terminated { return; }
    var op := if ok then TerminateSucceeded else TerminateFailed;
    next, err := RecordAnswer(store, backend, ref, st, op, |before|);
    if Releasable(st, ref) && !CursorOf(st).life.terminated { ReleaseKeeps(st, ref, op, store.pending[ref]); }
  }

  lemma NothingAdded(st: Stored, calls: seq<Call>, from: nat)
    ensures Backed(st, st, calls, from)
  {
  }

  lemma EvolvedSelf(st: Stored)
    requires HasClaim(st)
    ensures Evolved(st, st)
  {
  }

  ghost predicate Cleaned(st: Stored, ref: string) {
    Underway(st, ref) && CursorOf(st).life.terminal && CursorOf(st).life.terminated && CursorOf(st).life.cleaned
  }

  lemma CleanupKeeps(st: Stored, ref: string, now: Stored)
    requires now == st || Extended(st, Op.CleanupSucceeded, now)
    requires Releasable(st, ref) && CursorOf(st).life.terminated && ReleaseDone(SubjectOf(st.view), CursorOf(st))
    ensures Underway(now, ref)
    ensures Extended(st, Op.CleanupSucceeded, now) ==> Cleaned(now, ref) && CursorOf(now).life.terminalOp == CursorOf(st).life.terminalOp
  {
    hide Extended, Underway, CursorOf;
    if Extended(st, Op.CleanupSucceeded, now) { ExtendedCursor(st, ref, Op.CleanupSucceeded, now); }
  }

  /** Cleans up; anything but a verified release stops recovery. */
  method CleanUpWorker(store: DurableStore, backend: Backend, ref: string, st: Stored) returns (next: Stored, err: Err)
    requires store.Valid() && ref in store.pending && store.pending[ref] == st && Started(st)
    modifies store`pending, store`last, store`failed, backend
    ensures store.Valid() && store.OnlyRecord(ref) && Started(store.pending[ref]) && Evolved(st, store.pending[ref])
    ensures (old(store.failed) ==> store.failed) && Excused(err, store.failed, store.last, old(backend.calls), backend.calls, ClaimIDOf(st), WorkerOf(st))
    ensures err.Nil? ==> store.pending[ref] == next && Granted(old(backend.calls), backend.calls, [AskCleanup], ClaimIDOf(st), WorkerOf(st))
    ensures Asked(old(backend.calls), backend.calls, [AskCleanup], WorkerOf(st))
    ensures Backed(st, store.pending[ref], backend.calls, |old(backend.calls)|)
    ensures Releasable(st, ref) && CursorOf(st).life.terminated && ReleaseDone(SubjectOf(st.view), CursorOf(st)) ==>
              Underway(store.pending[ref], ref) &&
              (err.Nil? ==> Cleaned(next, ref) && CursorOf(next).life.terminalOp == CursorOf(st).life.terminalOp)
  {
    hide Extended, CursorOf, Evolved, Cleaned, ReleaseDone, ValidPreamble, Coherent, Fold, StagedFits, Backed, Asked, Granted;
    EvolvedSelf(st);
    next := st;
    ghost var before := backend.calls;
    NothingAdded(st, before, |before|);
    NothingAsked(before, [AskCleanup], WorkerOf(st));
    var writer := store.CheckWriter();
    if !writer { return st, StoreFailed; }
    var identity := st.view.state.value.claim.value.identity.value;
    var result, ok, released := backend.Cleanup(identity, store);
    BackedGrows(st, st, before, |before|, backend.calls, |before|);
    StepGranted(before, backend.calls[|before|], ClaimIDOf(st), identity);
    if !ok || !released || result != identity { return st, RecoveryRequired; }
    next, err := RecordAnswer(store, backend, ref, st, CleanupSucceeded, |before|);
    if Releasable(st, ref) && CursorOf(st).life.terminated && ReleaseDone(SubjectOf(st.view), CursorOf(st)) { CleanupKeeps(st, ref, store.pending[ref]); }
  }

  function OutcomeFactOf(st: Stored, o: Outcome, sequence: nat, time: int): Fact
    requires Started(st)
  {
    BLANK_FACT.(id := Numbering.FactID(sequence), sequence := sequence, timestamp := time, kind := Kind.RunOutcome, requestRef := st.view.requestRef,
                claimID := st.view.state.value.claim.value.id, operation := o.status, code := RecoveredInterruption, reason := o.failure)
  }

  /** The record of `ref` is published as a view the client accepts, or is still one that recovery can finish. */
  ghost predicate Settled(store: DurableStore, ref: string) reads store`pending, store`finished { SettledIn(store.pending, store.finished, ref) }

  ghost predicate SettledIn(pending: map<string, Stored>, finished: map<string, View>, ref: string) {
    if ref in pending then Recoverable(pending[ref], ref) else ref in finished && Accepts(finished[ref], ref)
  }

  /** Work on one record does not unsettle another. */
  lemma OthersStaySettled(pending0: map<string, Stored>, finished0: map<string, View>, pending1: map<string, Stored>, finished1: map<string, View>, ref: string, c: string)
    requires pending1 - {ref} == pending0 - {ref} && finished1 - {ref} == finished0 - {ref} && c != ref
    ensures c in pending1 <==> c in pending0
    ensures c in pending0 ==> pending1[c] == pending0[c]
    ensures SettledIn(pending1, finished1, c) == SettledIn(pending0, finished0, c)
  {
    hide Recoverable, Accepts;
    assert c in pending1 <==> c in pending1 - {ref};
    assert c in pending0 <==> c in pending0 - {ref};
    assert c in finished1 <==> c in finished1 - {ref};
    assert c in finished0 <==> c in finished0 - {ref};
    if c in pending0 { assert (pending1 - {ref})[c] == pending1[c] && (pending0 - {ref})[c] == pending0[c]; }
    if c in finished0 { assert (finished1 - {ref})[c] == finished1[c] && (finished0 - {ref})[c] == finished0[c]; }
  }

  lemma PublishKeeps(st: Stored, ref: string, kind: Op, sequence: nat, time: int)
    requires Started(st) && Cleaned(st, ref) && kind == CursorOf(st).life.terminalOp && time != 0 && sequence > Numbering.LastSequence(st.view.facts)
    requires var phase := st.view.state.value.claim.value.phase;
             phase.Succeeded? ==> st.staged.Some? && st.staged.value.model.Some? && st.staged.value.text != ""
    ensures var o := RecoveredOutcome(st.view.state.value.claim.value.phase, kind, st.staged);
            var f := OutcomeFactOf(st, o, sequence, time);
            Accepts(Published(st.view, f, o), ref) && Done(st.(view := st.view.(facts := st.view.facts + [f])), ref)
  {
    hide Fold, ValidPreamble, Coherent, StagedFits, Numbering.FactID, Numbering.LastSequence, RecoveredOutcome, Accepts;
    var o := RecoveredOutcome(st.view.state.value.claim.value.phase, kind, st.staged);
    var f := OutcomeFactOf(st, o, sequence, time);
    assert RecoveredFact(st.view.state.value, o, f) && NextStamp(st.view.facts, f);
    PublishStep(st, ref, o, f);
    PublishedPreamble(st.view, ref, f, o);
    PublishedCompletes(st, ref, o, f);
  }

  /** No fact but an outcome was added. */
  predicate OnlyOutcome(earlier: seq<Fact>, facts: seq<Fact>) {
    earlier <= facts && forall i | |earlier| <= i < |facts| :: facts[i].kind.RunOutcome?
  }

  /** What recovery publishes: an outcome and the fact of it that agree. It says Cancelled exactly when the fact that ended the run does,
      and otherwise names the phase of the claim; it carries the staged result exactly on success, and the notice of the
      interruption otherwise. */
  predicate Concluded(staged: Option<Outcome>, v: View) {
    v.outcome.Some? && v.state.Some? && v.state.value.claim.Some? && v.facts != [] &&
    var o, phase, f := v.outcome.value, v.state.value.claim.value.phase, v.facts[|v.facts| - 1];
    (o.status.Cancelled? <==> LastTerminal(v.facts).Cancelled?) && (phase.Succeeded? || phase.Failed? || phase.Expired?) &&
    (!o.status.Cancelled? ==>
       (phase.Succeeded? ==> o.status.Succeeded?) && (phase.Failed? ==> o.status.Failed?) && (phase.Expired? ==> o.status.Expired?)) &&
    (if phase.Succeeded? then
       staged.Some? && o.text == staged.value.text && o.model == staged.value.model && o.completion == staged.value.completion && o.failure == ""
     else o.text == "" && o.model.None? && o.completion.None? && o.failure == INTERRUPTED) &&
    f.kind.RunOutcome? && f.claimID == v.state.value.claim.value.id && f.operation == o.status && f.reason == o.failure && f.code.RecoveredInterruption?
  }

  lemma OutcomeConcludes(st: Stored, kind: Op, sequence: nat, time: int)
    requires Started(st) && Ended(st, kind) && (st.view.state.value.claim.value.phase.Succeeded? ==> st.staged.Some?)
    ensures var o := RecoveredOutcome(st.view.state.value.claim.value.phase, kind, st.staged);
            Concluded(st.staged, Published(st.view, OutcomeFactOf(st, o, sequence, time), o))
  {
    hide LastTerminal, Numbering.FactID;
    var o := RecoveredOutcome(st.view.state.value.claim.value.phase, kind, st.staged);
    OneMoreEnds(st.view.facts, OutcomeFactOf(st, o, sequence, time));
  }

  lemma PublishReady(st: Stored, ref: string, kind: Op, sequence: nat, time: int)
    requires Started(st) && time != 0 && sequence > Numbering.LastSequence(st.view.facts)
    ensures var phase := st.view.state.value.claim.value.phase;
            var o := RecoveredOutcome(phase, kind, st.staged);
            var f := OutcomeFactOf(st, o, sequence, time);
            (Ended(st, kind) && (phase.Succeeded? ==> st.staged.Some?) ==> Concluded(st.staged, Published(st.view, f, o))) &&
            (Cleaned(st, ref) && kind == CursorOf(st).life.terminalOp &&
             (phase.Succeeded? ==> st.staged.Some? && st.staged.value.model.Some? && st.staged.value.text != "") ==>
               Accepts(Published(st.view, f, o), ref) && Done(st.(view := st.view.(facts := st.view.facts + [f])), ref)) &&
            Published(st.view, f, o).state == st.view.state
  {
    hide Cleaned, CursorOf, OutcomeFactOf, RecoveredOutcome, Accepts, CompletedEvidence, Underway, Ended, Concluded, LastTerminal, Done;
    var phase := st.view.state.value.claim.value.phase;
    if Ended(st, kind) && (phase.Succeeded? ==> st.staged.Some?) { OutcomeConcludes(st, kind, sequence, time); }
    if Cleaned(st, ref) && kind == CursorOf(st).life.terminalOp && (phase.Succeeded? ==> st.staged.Some? && st.staged.value.model.Some? && st.staged.value.text != "") {
      PublishKeeps(st, ref, kind, sequence, time);
    }
  }

  /** Records the outcome of a released record and publishes it. */
  method Publish(store: DurableStore, ref: string, st: Stored, kind: Op) returns (err: Err)
    requires store.Valid() && ref in store.pending && store.pending[ref] == st && Started(st)
    modifies store
    ensures store.Valid() && store.pending - {ref} == old(store.pending) - {ref} && store.finished - {ref} == old(store.finished) - {ref}
    ensures (err.Nil? || err.StoreFailed?) && (old(store.failed) ==> store.failed) && (err.StoreFailed? ==> store.failed || store.last + 1 >= SEQUENCES)
    ensures ref in store.pending ==> store.finished == old(store.finished) && Evolved(st, store.pending[ref]) &&
                                     OnlyOutcome(st.view.facts, store.pending[ref].view.facts)
    ensures err.Nil? ==> ref !in store.pending && ref in store.finished
    ensures ref !in store.pending ==> ref in store.finished && st.view.facts <= store.finished[ref].facts && store.finished[ref].state == st.view.state &&
                                      OnlyOutcome(st.view.facts, store.finished[ref].facts)
    ensures var phase := st.view.state.value.claim.value.phase;
            Cleaned(st, ref) && kind == CursorOf(st).life.terminalOp &&
            (phase.Succeeded? ==> st.staged.Some? && st.staged.value.model.Some? && st.staged.value.text != "") ==>
              Settled(store, ref)
    ensures Ended(st, kind) && (st.view.state.value.claim.value.phase.Succeeded? ==> st.staged.Some?) && ref !in store.pending ==>
              Concluded(st.staged, store.finished[ref])
  {
    hide Cleaned, CursorOf, OutcomeFactOf, RecoveredOutcome, Accepts, CompletedEvidence, Underway, Ended, Concluded, LastTerminal, Evolved, Published, Done;
    if store.last + 1 >= SEQUENCES {
      EvolvedSelf(st);
      CleanedIsUnderway(st, ref);
      return StoreFailed;
    }
    var phase := st.view.state.value.claim.value.phase;
    var o := RecoveredOutcome(phase, kind, st.staged);
    var time := Clock();
    var f := OutcomeFactOf(st, o, store.last + 1, time);
    OutcomeFactNumber(st, o, store.last + 1, time);
    CleanedIsUnderway(st, ref);
    PublishReady(st, ref, kind, store.last + 1, time);
    err := Acknowledge(store, ref, st, f, Published(st.view, f, o));
  }

  /** Commits the outcome fact, then publishes the view it completes. */
  method Acknowledge(store: DurableStore, ref: string, st: Stored, f: Fact, view: View) returns (err: Err)
    requires store.Valid() && ref in store.pending && store.pending[ref] == st && f.sequence == store.last + 1 && Started(st) && f.kind.RunOutcome?
    modifies store
    ensures store.Valid() && store.pending - {ref} == old(store.pending) - {ref} && store.finished - {ref} == old(store.finished) - {ref}
    ensures (err.Nil? || err.StoreFailed?) && (old(store.failed) ==> store.failed) && (err.StoreFailed? ==> store.failed || store.last + 1 >= SEQUENCES)
    ensures err.Nil? ==> ref !in store.pending
    ensures ref in store.pending ==> store.finished == old(store.finished) && Evolved(st, store.pending[ref]) &&
                                     (store.pending[ref] == st || store.pending[ref] == st.(view := st.view.(facts := st.view.facts + [f])))
    ensures ref !in store.pending ==> ref in store.finished && store.finished[ref] == view
  {
    hide Numbering.LastSequence, LastTerminal;
    EvolvedSelf(st);
    OneMoreEnds(st.view.facts, f);
    var ok := store.Append(ref, f, None);
    if !ok { return StoreFailed; }
    ok := store.Finish(ref, view);
    err := if ok then Nil else StoreFailed;
  }

  lemma OutcomeFactNumber(st: Stored, o: Outcome, sequence: nat, time: int)
    requires Started(st)
    ensures OutcomeFactOf(st, o, sequence, time).sequence == sequence && OutcomeFactOf(st, o, sequence, time).kind.RunOutcome?
    ensures Published(st.view, OutcomeFactOf(st, o, sequence, time), o).facts == st.view.facts + [OutcomeFactOf(st, o, sequence, time)]
  {
  }

  lemma CleanedIsUnderway(st: Stored, ref: string)
    ensures Cleaned(st, ref) ==> Underway(st, ref)
  {
  }

  /** Terminates and cleans up a worker whose network authority is released. */
  method TakeOffline(store: DurableStore, backend: Backend, ref: string, st: Stored, terminated: bool) returns (next: Stored, err: Err)
    requires store.Valid() && ref in store.pending && store.pending[ref] == st && Started(st)
    modifies store`pending, store`last, store`failed, backend
    ensures store.Valid() && store.OnlyRecord(ref) && Started(store.pending[ref]) && Evolved(st, store.pending[ref])
    ensures (old(store.failed) ==> store.failed) && Excused(err, store.failed, store.last, old(backend.calls), backend.calls, ClaimIDOf(st), WorkerOf(st))
    ensures err.Nil? ==> store.pending[ref] == next &&
                         Granted(old(backend.calls), backend.calls, [AskTerminate, AskCleanup], ClaimIDOf(st), WorkerOf(st))
    ensures Asked(old(backend.calls), backend.calls, [AskTerminate, AskCleanup], WorkerOf(st))
    ensures Backed(st, store.pending[ref], backend.calls, |old(backend.calls)|)
    ensures Releasable(st, ref) && terminated == CursorOf(st).life.terminated && ReleaseDone(SubjectOf(st.view), CursorOf(st)) ==>
              Underway(store.pending[ref], ref) &&
              (err.Nil? ==> Cleaned(next, ref) && CursorOf(next).life.terminalOp == CursorOf(st).life.terminalOp)
  {
    hide CursorOf, Evolved, Cleaned, ReleaseDone, Underway, Backed, Asked, Granted, ClaimIDOf, WorkerOf;
    ghost var before := backend.calls;
    assert [AskTerminate] + [AskCleanup] == [AskTerminate, AskCleanup];
    var stopped, stopErr := StopWorker(store, backend, ref, st, terminated);
    if !stopErr.Nil? {
      AskedMore(before, backend.calls, [AskTerminate], [AskCleanup], WorkerOf(st));
      return stopped, stopErr;
    }
    ghost var middle := backend.calls;
    next, err := CleanUpWorker(store, backend, ref, stopped);
    EvolvedTrans(st, stopped, store.pending[ref]);
    SameWorker(st, stopped);
    AskedGrows(before, middle, [AskTerminate], WorkerOf(st));
    AskedGrows(middle, backend.calls, [AskCleanup], WorkerOf(st));
    AskedTrans(before, middle, backend.calls, [AskTerminate], [AskCleanup], ClaimIDOf(st), WorkerOf(st));
    BackedBoth(st, stopped, store.pending[ref], before, middle, backend.calls);
  }

  lemma SameWorker(a: Stored, b: Stored)
    requires Evolved(a, b)
    ensures ClaimIDOf(b) == ClaimIDOf(a) && WorkerOf(b) == WorkerOf(a)
  {
  }

  lemma AskedMore(before: seq<Call>, now: seq<Call>, plan: seq<Ask>, rest: seq<Ask>, worker: Identity)
    requires Asked(before, now, plan, worker)
    ensures Asked(before, now, plan + rest, worker)
  {
    hide AskOf;
    forall i | |before| <= i < |now| ensures AskOf(now[i]) == (plan + rest)[i - |before|] {
      assert (plan + rest)[i - |before|] == plan[i - |before|];
    }
  }

  /** Two stages of one recovery, one after the other. */
  lemma BackedBoth(a: Stored, b: Stored, c: Stored, before: seq<Call>, middle: seq<Call>, now: seq<Call>)
    requires Evolved(a, b) && Evolved(b, c) && before <= middle <= now
    requires Backed(a, b, middle, |before|) && Backed(b, c, now, |middle|)
    ensures Backed(a, c, now, |before|)
  {
    hide Evolved, Backed;
    BackedGrows(a, b, middle, |before|, now, |before|);
    BackedGrows(b, c, now, |middle|, now, |before|);
    BackedTrans(a, b, c, now, |before|);
  }

  /** Takes the worker of an ended claim offline and verifies it. */
  method Release(store: DurableStore, backend: Backend, ref: string, st: Stored, terminated: bool, governed: bool) returns (next: Stored, err: Err)
    requires store.Valid() && ref in store.pending && store.pending[ref] == st && Started(st)
    modifies store`pending, store`last, store`failed, backend
    ensures store.Valid() && store.OnlyRecord(ref) && Started(store.pending[ref]) && Evolved(st, store.pending[ref])
    ensures (old(store.failed) ==> store.failed) && Excused(err, store.failed, store.last, old(backend.calls), backend.calls, ClaimIDOf(st), WorkerOf(st))
    ensures err.Nil? ==> store.pending[ref] == next &&
                         Granted(old(backend.calls), backend.calls, ReleasePlan(governed), ClaimIDOf(st), WorkerOf(st))
    ensures Asked(old(backend.calls), backend.calls, ReleasePlan(governed), WorkerOf(st))
    ensures Backed(st, store.pending[ref], backend.calls, |old(backend.calls)|)
    ensures Releasable(st, ref) && terminated == CursorOf(st).life.terminated && (governed || ReleaseDone(SubjectOf(st.view), CursorOf(st))) ==>
              Underway(store.pending[ref], ref) &&
              (err.Nil? ==> Cleaned(next, ref) && CursorOf(next).life.terminalOp == CursorOf(st).life.terminalOp)
  {
    hide CursorOf, Evolved, Cleaned, ReleaseDone, Underway, Backed, Asked, Granted, ClaimIDOf, WorkerOf;
    EvolvedSelf(st);
    next := st;
    ghost var before := backend.calls;
    NothingAdded(st, before, |before|);
    NothingAsked(before, ReleasePlan(governed), WorkerOf(st));
    NothingAsked(before, [], WorkerOf(st));
    var writer := store.CheckWriter();
    if !writer { return st, StoreFailed; }
    if governed {
      next, err := ReleaseNetwork(store, backend, ref, next);
      if !err.Nil? {
        AskedMore(before, backend.calls, [AskRevoke], [AskTerminate, AskCleanup], WorkerOf(st));
        return;
      }
    }
    var released := next;
    ghost var middle := backend.calls;
    next, err := TakeOffline(store, backend, ref, released, terminated);
    EvolvedTrans(st, released, store.pending[ref]);
    SameWorker(st, released);
    AskedTrans(before, middle, backend.calls, RevokePlan(governed), [AskTerminate, AskCleanup], ClaimIDOf(st), WorkerOf(st));
    AskedGrows(before, middle, RevokePlan(governed), WorkerOf(st));
    AskedGrows(middle, backend.calls, [AskTerminate, AskCleanup], WorkerOf(st));
    BackedBoth(st, released, store.pending[ref], before, middle, backend.calls);
  }

  lemma AskedGrows(before: seq<Call>, now: seq<Call>, plan: seq<Ask>, worker: Identity)
    requires Asked(before, now, plan, worker) || exists claim :: Granted(before, now, plan, claim, worker)
    ensures before <= now
  {
  }

  /** What recovery found in a record it may finish. */
  predicate Inspected(st: Stored, scan: Scan) {
    HasClaim(st) && st.view.state.value.claim.value.identity.Some? && ValidIssuedState(st.view.state.value) &&
    ScanFacts(st.view.facts, st.view.requestRef) == Some(scan) && scan.terminal == Terminal(st.view.state.value.claim.value.phase) &&
    (st.view.state.value.claim.value.phase.Succeeded? ==> st.staged.Some? && st.staged.value.model.Some? && st.staged.value.text != "")
  }

  /** What must be known of a record to finish it: a valid state with a bound or ended claim, a network release that can be asked for
      where one is due, only facts of this request without an outcome or a failed cleanup, an ended run exactly for an ended claim, and
      the staged result of a success. */
  predicate Recognizable(st: Stored, supportsNetwork: bool) {
    HasClaim(st) && ValidIssuedState(st.view.state.value) &&
    var claim, facts := st.view.state.value.claim.value, st.view.facts;
    claim.identity.Some? && !claim.phase.Pending? && (AskRevoke in RecoveryPlan(st) ==> supportsNetwork) &&
    (forall i | 0 <= i < |facts| :: facts[i].requestRef == st.view.requestRef && !facts[i].kind.RunOutcome? && !(facts[i].kind.Runtime? && facts[i].operation.CleanupFailed?)) &&
    (!LastTerminal(facts).NoOp? <==> claim.phase.Succeeded? || claim.phase.Failed? || claim.phase.Expired?) &&
    (claim.phase.Succeeded? ==> st.staged.Some? && st.staged.value.model.Some? && st.staged.value.text != "")
  }

  lemma {:induction false} ScanAccepts(facts: seq<Fact>, ref: string)
    ensures ScanFacts(facts, ref).Some? <==>
            forall i | 0 <= i < |facts| :: facts[i].requestRef == ref && !facts[i].kind.RunOutcome? && !(facts[i].kind.Runtime? && facts[i].operation.CleanupFailed?)
    ensures ScanFacts(facts, ref).Some? ==> (ScanFacts(facts, ref).value.terminal <==> !LastTerminal(facts).NoOp?)
  {
    if facts != [] {
      var n := |facts| - 1;
      ScanAccepts(facts[..n], ref);
      assert forall i | 0 <= i < n :: facts[..n][i] == facts[i];
    }
  }

  lemma PlanRevokes(st: Stored)
    ensures AskRevoke in RecoveryPlan(st) <==> RequiresNetworkRelease(st.view)
  {
    hide RequiresNetworkRelease;
  }

  /** Refuses exactly the records whose allocation, lifecycle or result is not known well enough to finish them. */
  method Inspect(backend: Backend, st: Stored) returns (scan: Option<Scan>)
    ensures scan.Some? <==> Recognizable(st, backend.supportsNetwork)
    ensures scan.Some? ==> Inspected(st, scan.value) && !st.view.state.value.claim.value.phase.Pending?
    ensures scan.Some? ==> (RequiresNetworkRelease(st.view) ==> backend.supportsNetwork)
  {
    hide ValidIssuedState, RequiresNetworkRelease, RecoveryPlan, ScanFacts, LastTerminal;
    ScanAccepts(st.view.facts, st.view.requestRef);
    PlanRevokes(st);
    var view := st.view;
    if view.state.None? || !ValidIssuedState(view.state.value) || view.state.value.claim.None? { return None; }
    var claim := view.state.value.claim.value;
    if claim.identity.None? { return None; }
    if RequiresNetworkRelease(view) && !backend.supportsNetwork { return None; }
    if claim.phase.Pending? { return None; }
    scan := ScanRecord(view.facts, view.requestRef);
    if scan.None? || Terminal(claim.phase) != scan.value.terminal { return None; }
    if claim.phase.Succeeded? && (st.staged.None? || st.staged.value.model.None? || st.staged.value.text == "") { return None; }
  }

  /** The scan of a record that is under way reads the checker's own lifecycle. */
  lemma InspectedAgrees(st: Stored, ref: string, scan: Scan)
    requires Inspected(st, scan) && Underway(st, ref)
    ensures var life := CursorOf(st).life;
            scan == Scan(life.terminal, life.terminalOp, life.terminated, life.cleaned) && (life.cleaned ==> life.terminated && life.terminal)
    ensures !RequiresNetworkRelease(st.view) ==> ReleaseDone(SubjectOf(st.view), CursorOf(st))
  {
    hide ValidPreamble, Fold, StagedFits, RequiresNetworkRelease, StepOk;
    ScanAgrees(SubjectOf(st.view), st.view.facts);
    var _, _ := CheckerSoundness.MilestonesAreSpine(SubjectOf(st.view), st.view.facts);
    if !RequiresNetworkRelease(st.view) { UnmarkedHasNoNetwork(st, ref); }
  }

  lemma ClaimNamesRequest(st: Stored)
    requires HasClaim(st) && st.view.state.value.claim.value.identity.Some? && ValidIssuedState(st.view.state.value)
    ensures st.view.state.value.claim.value.requestRef == st.view.requestRef ==> Started(st)
  {
    hide ValidTrail;
  }

  /** Ends, releases and publishes one inspected record. */
  method FinishRecord(store: DurableStore, backend: Backend, ref: string, st: Stored, scan: Scan, governed: bool) returns (err: Err)
    requires store.Valid() && ref in store.pending && store.pending[ref] == st && Started(st) && Inspected(st, scan) && governed == RequiresNetworkRelease(st.view)
    modifies store, backend
    ensures store.Valid() && store.pending - {ref} == old(store.pending) - {ref} && store.finished - {ref} == old(store.finished) - {ref}
    ensures ref in store.pending ==> store.finished == old(store.finished) && Evolved(st, store.pending[ref])
    ensures (old(store.failed) ==> store.failed) && Excused(err, store.failed, store.last, old(backend.calls), backend.calls, ClaimIDOf(st), WorkerOf(st))
    ensures err.Nil? ==> ref !in store.pending
    ensures ref !in store.pending ==> ref in store.finished && st.view.facts <= store.finished[ref].facts && Concluded(st.staged, store.finished[ref])
    ensures Underway(st, ref) ==> Settled(store, ref)
    ensures scan.cleaned ==> backend.calls == old(backend.calls)
    ensures Asked(old(backend.calls), backend.calls, ReleasePlan(governed), WorkerOf(st))
    ensures ref !in store.pending && !scan.cleaned ==>
              Granted(old(backend.calls), backend.calls, ReleasePlan(governed), ClaimIDOf(st), WorkerOf(st))
    ensures BackedIn(store.pending, store.finished, ref, st, backend.calls, |old(backend.calls)|)
  {
    hide CursorOf, Evolved, Cleaned, ReleaseDone, Underway, Releasable, Inspected, Accepts, CompletedEvidence, RequiresNetworkRelease, ReleasePlan,
         Backed, Asked, Granted, ClaimIDOf, WorkerOf, OnlyOutcome, Ended, Concluded, LastTerminal;
    ghost var before := backend.calls;
    InspectedSays(st, scan);
    if Underway(st, ref) { InspectedAgrees(st, ref, scan); }
    var now, kind;
    now, kind, err := EndRecord(store, backend, ref, st, scan, governed);
    if !err.Nil? { return; }
    PublishedExtends(st, now);
    err := Publish(store, ref, now, kind);
    if ref in store.pending { EvolvedTrans(st, now, store.pending[ref]); }
    PublishedIsBacked(st, now, ref, store.pending, store.finished, backend.calls, |before|);
  }

  /** Ends an interrupted claim, and releases its worker unless that was done before. */
  method EndRecord(store: DurableStore, backend: Backend, ref: string, st: Stored, scan: Scan, governed: bool) returns (now: Stored, kind: Op, err: Err)
    requires store.Valid() && ref in store.pending && store.pending[ref] == st && Started(st) && governed == RequiresNetworkRelease(st.view)
    requires scan.terminal == Terminal(st.view.state.value.claim.value.phase) && scan.kind == LastTerminal(st.view.facts)
    modifies store`pending, store`last, store`failed, backend
    ensures store.Valid() && store.OnlyRecord(ref) && Started(store.pending[ref]) && Evolved(st, store.pending[ref])
    ensures (old(store.failed) ==> store.failed) && Excused(err, store.failed, store.last, old(backend.calls), backend.calls, ClaimIDOf(st), WorkerOf(st))
    ensures err.Nil? ==> Ended(now, kind)
    ensures Asked(old(backend.calls), backend.calls, ReleasePlan(governed), WorkerOf(st)) && (scan.cleaned ==> backend.calls == old(backend.calls))
    ensures Backed(st, store.pending[ref], backend.calls, |old(backend.calls)|)
    ensures err.Nil? ==> store.pending[ref] == now &&
                         (scan.cleaned || Granted(old(backend.calls), backend.calls, ReleasePlan(governed), ClaimIDOf(st), WorkerOf(st)))
    ensures Underway(st, ref) && scan == Scan(CursorOf(st).life.terminal, CursorOf(st).life.terminalOp, CursorOf(st).life.terminated, CursorOf(st).life.cleaned) &&
            (scan.cleaned ==> scan.terminated && scan.terminal) && (governed || ReleaseDone(SubjectOf(st.view), CursorOf(st))) ==>
              Underway(store.pending[ref], ref) && (err.Nil? ==> Cleaned(now, ref) && kind == CursorOf(now).life.terminalOp)
  {
    hide CursorOf, Evolved, Cleaned, ReleaseDone, Underway, Releasable, RequiresNetworkRelease, ReleasePlan, Backed, Asked, Granted, ClaimIDOf, WorkerOf,
         Ended, LastTerminal;
    ghost var before := backend.calls;
    NothingAdded(st, before, |before|);
    NothingAsked(before, ReleasePlan(governed), WorkerOf(st));
    EvolvedSelf(st);
    now, kind, err := st, scan.kind, Nil;
    EndedAlready(st, scan);
    if !scan.terminal {
      kind := Op.Failed;
      now, err := FailInterrupted(store, backend, ref, st, scan.cleaned, governed);
      if !err.Nil? { return; }
    }
    UnreleasedIsReleasable(now, ref);
    SameWorker(st, now);
    if !scan.cleaned {
      ghost var ended := now;
      now, err := Release(store, backend, ref, now, scan.terminated, governed);
      EvolvedTrans(st, ended, store.pending[ref]);
      StaysEnded(ended, store.pending[ref], kind);
      AskedGrows(before, backend.calls, ReleasePlan(governed), WorkerOf(st));
      BackedBoth(st, ended, store.pending[ref], before, before, backend.calls);
    }
  }

  lemma EndedAlready(st: Stored, scan: Scan)
    requires HasClaim(st) && scan.terminal == Terminal(st.view.state.value.claim.value.phase) && scan.kind == LastTerminal(st.view.facts)
    ensures scan.terminal ==> Ended(st, scan.kind)
  {
    hide LastTerminal;
  }

  /** The facts of the record, pending or published, are backed by the calls. */
  predicate BackedIn(pending: map<string, Stored>, finished: map<string, View>, ref: string, st: Stored, calls: seq<Call>, from: nat) {
    if ref in pending then Backed(st, pending[ref], calls, from)
    else ref in finished && Warranted(st.view.facts, finished[ref].facts, ClaimIDOf(st), WorkerOf(st), calls, from)
  }

  lemma PublishedIsBacked(st: Stored, now: Stored, ref: string, pending: map<string, Stored>, finished: map<string, View>, calls: seq<Call>, from: nat)
    requires Backed(st, now, calls, from) && Evolved(st, now)
    requires if ref in pending then OnlyOutcome(now.view.facts, pending[ref].view.facts)
             else ref in finished && OnlyOutcome(now.view.facts, finished[ref].facts)
    ensures BackedIn(pending, finished, ref, st, calls, from)
  {
    hide Warrants, ClaimIDOf, WorkerOf;
    var facts := if ref in pending then pending[ref].view.facts else finished[ref].facts;
    forall i | |st.view.facts| <= i < |facts| && facts[i].kind.Runtime? && Reports(facts[i].operation)
      ensures exists j | from <= j < |calls| :: Warrants(calls[j], ClaimIDOf(st), WorkerOf(st), facts[i])
    {
      assert facts[i] == now.view.facts[i];
    }
  }

  lemma InspectedSays(st: Stored, scan: Scan)
    requires Inspected(st, scan)
    ensures scan.terminal == Terminal(st.view.state.value.claim.value.phase) && scan.kind == LastTerminal(st.view.facts)
    ensures st.view.state.value.claim.value.phase.Succeeded? ==> st.staged.Some? && st.staged.value.model.Some? && st.staged.value.text != ""
  {
    hide ScanFacts, ValidIssuedState, LastTerminal;
    ScanEnds(st.view.facts, st.view.requestRef);
  }

  lemma UnreleasedIsReleasable(st: Stored, ref: string)
    ensures Underway(st, ref) && CursorOf(st).life.terminal ==>
              (if CursorOf(st).life.cleaned then CursorOf(st).life.terminated ==> Cleaned(st, ref) else Releasable(st, ref))
    ensures Cleaned(st, ref) ==> Underway(st, ref)
  {
    hide Underway, CursorOf;
  }

  lemma PublishedExtends(st: Stored, now: Stored)
    requires Evolved(st, now)
    ensures st.view.facts <= now.view.facts && now.staged == st.staged
    ensures now.view.state.value.claim.value.phase.Succeeded? ==> st.view.state.value.claim.value.phase.Succeeded?
  {
  }

  /** Recovers one record. Whatever fails, a record that recovery could finish stays one, and a published view
      is accepted. */
  method RecoverAllocation(store: DurableStore, backend: Backend, ref: string) returns (err: Err)
    requires store.Valid() && ref in store.pending
    modifies store, backend
    ensures store.Valid() && store.pending - {ref} == old(store.pending) - {ref} && store.finished - {ref} == old(store.finished) - {ref}
    ensures ref in store.pending ==> store.finished == old(store.finished) &&
                                     (store.pending[ref] == old(store.pending)[ref] || Evolved(old(store.pending)[ref], store.pending[ref]))
    ensures err.Nil? ==> ref !in store.pending
    ensures var st := old(store.pending)[ref];
            Recognizable(st, backend.supportsNetwork) && st.view.requestRef != "" && st.view.state.value.claim.value.requestRef == st.view.requestRef ==>
              Excused(err, store.failed, store.last, old(backend.calls), backend.calls, ClaimIDOf(st), WorkerOf(st))
    ensures ref !in store.pending ==> ref in store.finished && old(store.pending)[ref].view.facts <= store.finished[ref].facts &&
                                      Concluded(old(store.pending)[ref].staged, store.finished[ref])
    ensures Underway(old(store.pending)[ref], ref) ==> Settled(store, ref)
    ensures var st := old(store.pending)[ref];
            Asked(old(backend.calls), backend.calls, RecoveryPlan(st), WorkerOf(st)) &&
            BackedIn(store.pending, store.finished, ref, st, backend.calls, |old(backend.calls)|) &&
            (ref !in store.pending ==> Offline(st, old(backend.calls), backend.calls))
  {
    hide Evolved, Underway, ScanFacts, ValidIssuedState, Accepts, CompletedEvidence, RequiresNetworkRelease, ReleasePlan, Asked, Granted, Backed, ClaimIDOf,
         WorkerOf, Warranted, Concluded, Recognizable;
    var st := store.pending[ref];
    ghost var before := backend.calls;
    NothingAdded(st, before, |before|);
    NothingAsked(before, RecoveryPlan(st), WorkerOf(st));
    NothingAsked(before, [], WorkerOf(st));
    var scan := Inspect(backend, st);
    if scan.None? { return RecoveryRequired; }
    var writer := store.CheckWriter();
    if !writer { return StoreFailed; }
    if !scan.value.cleaned {
      var claim := st.view.state.value.claim.value;
      var ok := backend.RestoreForCleanup(claim.id, claim.identity.value, store);
      RecordNamesWorker(st);
      StepGranted(before, backend.calls[|before|], claim.id, claim.identity.value);
      AskedMore(before, backend.calls, [AskRestore], ReleasePlan(RequiresNetworkRelease(st.view)), WorkerOf(st));
      NothingAdded(st, backend.calls, |before|);
      if !ok { return RecoveryRequired; }
      assert Granted(before, backend.calls, [AskRestore], ClaimIDOf(st), WorkerOf(st));
    }
    ghost var middle := backend.calls;
    var readable := store.LastSequence();
    // The journal of recovery accepts the request and the claim only if they name each other.
    if !readable || st.view.requestRef == "" || st.view.state.value.claim.value.requestRef != st.view.requestRef { return StoreFailed; }
    ClaimNamesRequest(st);
    err := FinishRecord(store, backend, ref, st, scan.value, RequiresNetworkRelease(st.view));
    InspectedScan(st, scan.value);
    if scan.value.cleaned {
      assert backend.calls == before;
    } else {
      AskedTrans(before, middle, backend.calls, [AskRestore], ReleasePlan(RequiresNetworkRelease(st.view)), ClaimIDOf(st), WorkerOf(st));
      AskedGrows(middle, backend.calls, ReleasePlan(RequiresNetworkRelease(st.view)), WorkerOf(st));
      BackedInGrows(store.pending, store.finished, ref, st, backend.calls, |middle|, backend.calls, |before|);
    }
  }

  function RecoveryPlan(st: Stored): seq<Ask> { [AskRestore] + ReleasePlan(RequiresNetworkRelease(st.view)) }

  /** An event named for the network. */
  predicate NamesNetwork(op: Op) {
    op.NetworkActivationAttempt? || op.NetworkActive? || op.NetworkActivationFailed? || op.NetworkRevocationAttempt? || op.NetworkRevoked? ||
    op.NetworkRevocationFailed? || (op.OtherOp? && "Network" <= op.name)
  }

  lemma {:induction false} NetworkIsListed(ops: seq<Op>)
    ensures HasNetwork(ops) <==> exists i | 0 <= i < |ops| :: NamesNetwork(ops[i])
  {
    if ops != [] {
      var n := |ops| - 1;
      NetworkIsListed(ops[..n]);
      assert forall i | 0 <= i < n :: ops[..n][i] == ops[i];
    }
  }

  /** Recovery asks for a network release exactly when the request, the state or any fact of the record carries a sign of network
      authority: a requested or granted profile, an allocation named in the worker's identity, or an event of the network. */
  lemma MarkedIsRevoked(st: Stored)
    ensures AskRevoke in RecoveryPlan(st) <==>
              (st.view.request.Some? && st.view.request.value.access.network != []) ||
              (st.view.state.Some? &&
               ((st.view.state.value.authority.Some? && st.view.state.value.authority.value.network != []) ||
                (st.view.state.value.claim.Some? && st.view.state.value.claim.value.identity.Some? && st.view.state.value.claim.value.identity.value.allocation != "") ||
                exists i | 0 <= i < |st.view.state.value.evidence.events| :: NamesNetwork(st.view.state.value.evidence.events[i]))) ||
              exists i | 0 <= i < |st.view.facts| ::
                var f := st.view.facts[i];
                (f.kind.Runtime? && NamesNetwork(f.operation)) || (f.identity.Some? && f.identity.value.allocation != "") ||
                (f.authority.Some? && f.authority.value.network != [])
  {
    if st.view.state.Some? { NetworkIsListed(st.view.state.value.evidence.events); }
    assert forall i | 0 <= i < |st.view.facts| :: NetworkNamed(st.view.facts[i].operation) <==> NamesNetwork(st.view.facts[i].operation);
  }

  /** The log says that the worker was cleaned up before. */
  predicate CleanedBefore(st: Stored) {
    ScanFacts(st.view.facts, st.view.requestRef).Some? && ScanFacts(st.view.facts, st.view.requestRef).value.cleaned
  }

  /** The worker of the record was cleaned up before, or the backend restored, released and cleaned it up now. */
  predicate Offline(st: Stored, before: seq<Call>, now: seq<Call>) {
    CleanedBefore(st) || Granted(before, now, RecoveryPlan(st), ClaimIDOf(st), WorkerOf(st))
  }

  lemma RecordNamesWorker(st: Stored)
    requires HasClaim(st) && st.view.state.value.claim.value.identity.Some?
    ensures ClaimIDOf(st) == st.view.state.value.claim.value.id && WorkerOf(st) == st.view.state.value.claim.value.identity.value
  {
  }

  lemma InspectedScan(st: Stored, scan: Scan)
    requires Inspected(st, scan)
    ensures scan.cleaned <==> CleanedBefore(st)
  {
    hide ScanFacts, ValidIssuedState;
  }

  lemma BackedInGrows(pending: map<string, Stored>, finished: map<string, View>, ref: string, st: Stored, calls: seq<Call>, from: nat, more: seq<Call>, start: nat)
    requires BackedIn(pending, finished, ref, st, calls, from) && calls <= more && start <= from
    ensures BackedIn(pending, finished, ref, st, more, start)
  {
    hide Warrants, ClaimIDOf, WorkerOf;
    var facts := if ref in pending then pending[ref].view.facts else finished[ref].facts;
    forall i | |st.view.facts| <= i < |facts| && facts[i].kind.Runtime? && Reports(facts[i].operation)
      ensures exists j | start <= j < |more| :: Warrants(more[j], ClaimIDOf(st), WorkerOf(st), facts[i])
    {
      var j :| from <= j < |calls| && Warrants(calls[j], ClaimIDOf(st), WorkerOf(st), facts[i]);
      assert more[j] == calls[j];
    }
  }

  /** A record that is still under way has no outcome to publish. */
  lemma UnderwayIsNotComplete(st: Stored, ref: string)
    requires Underway(st, ref)
    ensures CompletedEvidence(st).None?
  {
    hide ValidPreamble, Fold, StagedFits, ValidIssuedState, StepOk;
    CheckerSoundness.OutcomeIsLast(SubjectOf(st.view), st.view.facts);
  }

  /** The pending records, each once. */
  method Pending(store: DurableStore) returns (refs: seq<string>, ok: bool)
    modifies store`failed
    ensures store.failed == (old(store.failed) || !ok)
    ensures ok ==> |refs| == |store.pending| && forall ref :: ref in refs <==> ref in store.pending
    ensures forall i, j | 0 <= i < j < |refs| :: refs[i] != refs[j]
  {
    ok := store.Live();
    refs := [];
    if !ok { return; }
    var left := store.pending.Keys;
    while left != {}
      invariant forall ref :: ref in store.pending <==> ref in left || ref in refs
      invariant (forall ref | ref in refs :: ref !in left) && |refs| + |left| == |store.pending.Keys|
      invariant forall i, j | 0 <= i < j < |refs| :: refs[i] != refs[j]
      decreases left
    {
      var ref :| ref in left;
      refs, left := refs + [ref], left - {ref};
    }
  }

  /** Why the record cannot be finished: it is not recognizable, it is not named as its claim names it, or the backend did not grant the last
      call. */
  predicate Blocked(st: Stored, supportsNetwork: bool, before: seq<Call>, now: seq<Call>) {
    CompletedEvidence(st).None? &&
    (!Recognizable(st, supportsNetwork) || st.view.requestRef == "" || st.view.state.value.claim.value.requestRef != st.view.requestRef ||
     (|before| < |now| && !Grants(now[|now| - 1], ClaimIDOf(st), WorkerOf(st))))
  }

  /** Completes or recovers one pending record. */
  method RecoverRecord(store: DurableStore, backend: Backend, ref: string) returns (err: Err)
    requires store.Valid() && ref in store.pending
    modifies store, backend
    ensures store.Valid() && store.pending - {ref} == old(store.pending) - {ref} && store.finished - {ref} == old(store.finished) - {ref}
    ensures err.Nil? ==> ref !in store.pending
    ensures !err.Nil? ==> store.failed || store.last + 1 >= SEQUENCES || Blocked(old(store.pending)[ref], backend.supportsNetwork, old(backend.calls), backend.calls)
    ensures Recoverable(old(store.pending)[ref], ref) ==> Settled(store, ref)
    ensures old(backend.calls) <= backend.calls && Accounted(store.pending, store.finished, old(store.pending)[ref], ref, backend.calls, |old(backend.calls)|)
  {
    hide Evolved, Underway, Accepts, CompletedEvidence, RequiresNetworkRelease, ReleasePlan, Asked, Granted, Backed, Warranted, RecoveryPlan, Offline, Recognizable,
         Concluded, Grants;
    var st := store.pending[ref];
    ghost var before := backend.calls;
    NothingAdded(st, before, |before|);
    var completed := CompletedEvidence(st);
    if completed.Some? { CompletedAddsNothing(st, before); }
    if Underway(st, ref) { UnderwayIsNotComplete(st, ref); }
    if completed.Some? {
      var ok := store.Finish(ref, completed.value);
      err := if ok then Nil else StoreFailed;
    } else {
      err := RecoverAllocation(store, backend, ref);
      AskedGrows(before, backend.calls, RecoveryPlan(st), WorkerOf(st));
      assert backend.calls[..|before|] == before && backend.calls[..|backend.calls|] == backend.calls;
    }
  }

  /** What recovery has recorded of this record since then is backed by its calls; and if it was published, only its
      publication was lost or its worker is offline. */
  ghost predicate Accounted(pending: map<string, Stored>, finished: map<string, View>, st: Stored, ref: string, calls: seq<Call>, from: nat) {
    BackedIn(pending, finished, ref, st, calls, from) && (ref !in pending ==> CompletedEvidence(st).Some? || TakenOffline(st, calls, from))
  }

  /** Somewhere among the calls from number `from` on, unless it was done before. */
  ghost predicate TakenOffline(st: Stored, calls: seq<Call>, from: nat) {
    exists k, l | from <= k <= l <= |calls| :: Offline(st, calls[..k], calls[..l])
  }

  lemma AccountedGrows(pending0: map<string, Stored>, finished0: map<string, View>, pending1: map<string, Stored>, finished1: map<string, View>,
                       st: Stored, c: string, calls: seq<Call>, from: nat, more: seq<Call>, start: nat)
    requires Accounted(pending0, finished0, st, c, calls, from) && calls <= more && start <= from
    requires c in pending1 <==> c in pending0
    requires c in pending0 ==> pending1[c] == pending0[c]
    requires c in finished0 ==> c in finished1 && finished1[c] == finished0[c]
    ensures Accounted(pending1, finished1, st, c, more, start)
  {
    hide Offline, Backed, Warranted, CompletedEvidence;
    BackedInGrows(pending0, finished0, c, st, calls, from, more, start);
    if TakenOffline(st, calls, from) {
      var k, l :| from <= k <= l <= |calls| && Offline(st, calls[..k], calls[..l]);
      assert more[..k] == calls[..k] && more[..l] == calls[..l];
    }
  }

  lemma CompletedAddsNothing(st: Stored, calls: seq<Call>)
    requires CompletedEvidence(st).Some?
    ensures Warranted(st.view.facts, CompletedEvidence(st).value.facts, ClaimIDOf(st), WorkerOf(st), calls, |calls|)
  {
  }

  /** The record of `c` is settled, if it could be recovered before. */
  ghost predicate StaysSettled(pending: map<string, Stored>, finished: map<string, View>, before: map<string, Stored>, c: string) {
    c in before && Recoverable(before[c], c) ==> SettledIn(pending, finished, c)
  }

  /** Recovers one more record of those that were pending `before`. */
  method RecoverNext(store: DurableStore, backend: Backend, ref: string, ghost before: map<string, Stored>, ghost from: nat) returns (err: Err)
    requires store.Valid() && ref in store.pending && ref in before && store.pending[ref] == before[ref]
    requires forall c :: StaysSettled(store.pending, store.finished, before, c)
    requires from <= |backend.calls| && forall c | c in before :: Accounted(store.pending, store.finished, before[c], c, backend.calls, from)
    modifies store, backend
    ensures store.Valid() && (err.Nil? ==> ref !in store.pending)
    ensures !err.Nil? ==> store.failed || store.last + 1 >= SEQUENCES || Blocked(before[ref], backend.supportsNetwork, old(backend.calls), backend.calls)
    ensures old(backend.calls) <= backend.calls && forall c | c in before :: Accounted(store.pending, store.finished, before[c], c, backend.calls, from)
    ensures forall c | c != ref :: (c in store.pending <==> c in old(store.pending)) && (c in store.pending ==> store.pending[c] == old(store.pending)[c])
    ensures forall c :: StaysSettled(store.pending, store.finished, before, c)
    ensures store.pending.Keys <= old(store.pending).Keys
  {
    hide SettledIn, Recoverable, Accounted, Blocked;
    ghost var pending0, finished0, calls0 := store.pending, store.finished, backend.calls;
    err := RecoverRecord(store, backend, ref);
    AccountedGrows(store.pending, store.finished, store.pending, store.finished, before[ref], ref, backend.calls, |calls0|, backend.calls, from);
    forall c | c in before ensures Accounted(store.pending, store.finished, before[c], c, backend.calls, from) {
      if c != ref {
        OthersStaySettled(pending0, finished0, store.pending, store.finished, ref, c);
        FinishedElsewhere(finished0, store.finished, ref, c);
        AccountedGrows(pending0, finished0, store.pending, store.finished, before[c], c, calls0, from, backend.calls, from);
      }
    }
    forall c | c != ref
      ensures c in store.pending <==> c in pending0
      ensures c in pending0 ==> store.pending[c] == pending0[c]
      ensures StaysSettled(store.pending, store.finished, before, c)
    {
      assert StaysSettled(pending0, finished0, before, c);
      OthersStaySettled(pending0, finished0, store.pending, store.finished, ref, c);
    }
  }

  lemma FinishedElsewhere(finished0: map<string, View>, finished1: map<string, View>, ref: string, c: string)
    requires finished1 - {ref} == finished0 - {ref} && c != ref
    ensures c in finished0 ==> c in finished1 && finished1[c] == finished0[c]
  {
    if c in finished0 { assert c in finished0 - {ref} && (finished1 - {ref})[c] == (finished0 - {ref})[c]; }
  }

  /** Exactly the listed records are still pending, as they were `before`. */
  ghost predicate LeftOver(pending: map<string, Stored>, before: map<string, Stored>, refs: seq<string>) {
    (forall c :: c in pending <==> c in refs) && forall c | c in refs :: c in before && pending[c] == before[c]
  }

  lemma NextLeftOver(pending0: map<string, Stored>, pending: map<string, Stored>, before: map<string, Stored>, refs: seq<string>)
    requires refs != [] && LeftOver(pending0, before, refs) && refs[0] !in pending && refs[0] !in refs[1..]
    requires forall c | c != refs[0] :: (c in pending <==> c in pending0) && (c in pending ==> pending[c] == pending0[c])
    ensures LeftOver(pending, before, refs[1..])
  {
    assert forall c :: c in refs <==> c == refs[0] || c in refs[1..];
  }

  /** Some record that was pending cannot be finished. */
  ghost predicate SomeBlocked(before: map<string, Stored>, supportsNetwork: bool, calls: seq<Call>, from: nat) {
    exists c, k | c in before && from <= k <= |calls| :: Blocked(before[c], supportsNetwork, calls[..k], calls)
  }

  lemma OneBlocked(before: map<string, Stored>, c: string, supportsNetwork: bool, calls: seq<Call>, now: seq<Call>, from: nat)
    requires c in before && from <= |calls| && calls <= now
    ensures Blocked(before[c], supportsNetwork, calls, now) ==> SomeBlocked(before, supportsNetwork, now, from)
  {
    hide Blocked;
    assert now[..|calls|] == calls;
  }

  /** Runs recovery before any admission. It may stop at any record, and may be run again after it stops: every
      record that could be recovered before is then published and accepted, or can still be recovered; whatever it has
      recorded of the backend's answers the backend did answer, for that worker, and the worker of every record it
      published is offline. */
  method RecoverDurableWork(store: DurableStore, backend: Backend) returns (recovered: nat, err: Err)
    requires store.Valid()
    modifies store, backend
    ensures store.Valid() && store.pending.Keys <= old(store.pending).Keys
    ensures forall c :: StaysSettled(store.pending, store.finished, old(store.pending), c)
    ensures old(backend.calls) <= backend.calls &&
            forall c | c in old(store.pending) :: Accounted(store.pending, store.finished, old(store.pending)[c], c, backend.calls, |old(backend.calls)|)
    ensures err.Nil? ==> store.pending == map[] && recovered == |old(store.pending)|
    ensures !err.Nil? ==>
              store.failed || store.last + 1 >= SEQUENCES || SomeBlocked(old(store.pending), backend.supportsNetwork, backend.calls, |old(backend.calls)|)
  {
    hide SettledIn, Recoverable, StaysSettled, LeftOver, Accounted, Blocked, SomeBlocked;
    recovered, err := 0, Nil;
    ghost var before, from := store.pending, |backend.calls|;
    AtRestIsAccounted(store.pending, store.finished, backend.calls, from);
    forall c ensures StaysSettled(store.pending, store.finished, before, c) { AtRestIsSettled(store.pending, store.finished, c); }
    var refs, listed := Pending(store);
    if !listed { return 0, StoreFailed; }
    AllLeft(store.pending, refs);
    for i := 0 to |refs|
      invariant store.Valid() && recovered == i && err.Nil? && store.pending.Keys <= before.Keys
      invariant LeftOver(store.pending, before, refs[i..]) && forall c :: StaysSettled(store.pending, store.finished, before, c)
      invariant old(backend.calls) <= backend.calls && forall c | c in before :: Accounted(store.pending, store.finished, before[c], c, backend.calls, from)
    {
      var live := store.Live();
      if !live { return recovered, StoreFailed; }
      ghost var pending0, calls0 := store.pending, backend.calls;
      FirstLeft(store.pending, before, refs[i..]);
      err := RecoverNext(store, backend, refs[i], before, from);
      if !err.Nil? {
        OneBlocked(before, refs[i], backend.supportsNetwork, calls0, backend.calls, from);
        return;
      }
      assert refs[i..][1..] == refs[i + 1..] && refs[i] !in refs[i + 1..];
      NextLeftOver(pending0, store.pending, before, refs[i..]);
      recovered := recovered + 1;
    }
    NoneLeft(store.pending, before, refs[|refs|..]);
  }

  lemma AllLeft(pending: map<string, Stored>, refs: seq<string>)
    requires forall c :: c in refs <==> c in pending
    ensures LeftOver(pending, pending, refs[0..])
  {
    assert refs[0..] == refs;
  }

  lemma FirstLeft(pending: map<string, Stored>, before: map<string, Stored>, refs: seq<string>)
    requires LeftOver(pending, before, refs) && refs != []
    ensures refs[0] in pending && refs[0] in before && pending[refs[0]] == before[refs[0]]
  {
  }

  lemma NoneLeft(pending: map<string, Stored>, before: map<string, Stored>, refs: seq<string>)
    requires LeftOver(pending, before, refs) && refs == []
    ensures pending == map[]
  {
  }

  lemma AtRestIsAccounted(pending: map<string, Stored>, finished: map<string, View>, calls: seq<Call>, from: nat)
    ensures forall c | c in pending :: Accounted(pending, finished, pending[c], c, calls, from)
  {
    hide Warrants;
  }

  lemma AtRestIsSettled(pending: map<string, Stored>, finished: map<string, View>, c: string)
    ensures StaysSettled(pending, finished, pending, c)
  {
    hide Recoverable;
  }
}
