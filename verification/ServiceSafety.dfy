/** Many claims at once: every claim's run makes its own moves, but only the holder of the service's run lock
    may go beyond registering or abandoning a claim. */
module ServiceSafety {
  import opened Evidence
  import opened Protocol
  import Discipline
  import Lifecycle

  /** The runs so far, who holds the run lock, and which claim each backend identity belongs to. */
  datatype System = System(runs: map<string, Run>, holder: Option<string>, owners: map<Identity, string>)

  datatype Move = Enter(claim: string) | Lock(claim: string) | Unlock(claim: string) | Act(claim: string, event: Event)

  /** A claim whose context has ended is registered and abandoned without the lock. */
  predicate NeedsNoLock(r: Run, e: Event) {
    e.SawContext? || (e.Wrote? && (e.op.Pending? || (r.phase.Pending? && r.reserved.None? && (e.op.Expired? || e.op.Cancelled?))))
  }

  /** An identity is reserved exactly if no other claim owns it. */
  predicate MayOwn(owners: map<Identity, string>, claim: string, e: Event) {
    (e.Reserved? ==> e.identity in owners ==> owners[e.identity] == claim) &&
    (e.Taken? ==> e.identity in owners && owners[e.identity] != claim)
  }

  predicate Acts(s: System, now: System, claim: string, e: Event) {
    claim in s.runs && Guard(s.runs[claim], e) && (NeedsNoLock(s.runs[claim], e) || s.holder == Some(claim)) && MayOwn(s.owners, claim, e) &&
    now == System(s.runs[claim := After(s.runs[claim], e)], s.holder, if e.Reserved? then s.owners[e.identity := claim] else s.owners)
  }

  predicate Takes(s: System, now: System, move: Move) {
    match move
    case Enter(claim) => claim !in s.runs && now == s.(runs := s.runs[claim := Begin(claim)])
    case Lock(claim) => claim in s.runs && s.holder.None? && now == s.(holder := Some(claim))
    case Unlock(claim) => s.holder == Some(claim) && claim in s.runs && Complete(s.runs[claim]) && now == s.(holder := None)
    case Act(claim, e) => Acts(s, now, claim, e)
  }

  const IDLE := System(map[], None, map[])

  predicate Behaviour(states: seq<System>, moves: seq<Move>) {
    |states| == |moves| + 1 && states[0] == IDLE && forall i | 0 <= i < |moves| :: Takes(states[i], states[i + 1], moves[i])
  }

  predicate ActivePhase(phase: Phase) { phase.Bound? || phase.Running? }

  predicate RunKept(s: System, claim: string, r: Run) {
    Lifecycle.SoundPhase(r) && (ActivePhase(r.phase) ==> s.holder == Some(claim)) &&
    (r.reserved.Some? ==> r.reserved.value in s.owners && s.owners[r.reserved.value] == claim)
  }

  predicate Kept(s: System) { forall c | c in s.runs :: RunKept(s, c, s.runs[c]) }

  lemma NoLockStaysInactive(r: Run, e: Event)
    requires Lifecycle.SoundPhase(r) && Guard(r, e) && NeedsNoLock(r, e) && ActivePhase(After(r, e).phase)
    ensures ActivePhase(r.phase)
  {
    hide After, MayWrite;
    Discipline.AfterFields(r, e);
  }

  lemma CompleteIsInactive(r: Run)
    requires Lifecycle.SoundPhase(r) && Complete(r)
    ensures !ActivePhase(r.phase)
  {
  }

  lemma ActKeeps(s: System, now: System, claim: string, e: Event)
    requires Kept(s) && Acts(s, now, claim, e)
    ensures Kept(now)
  {
    hide After, Guard, Lifecycle.SoundPhase, NeedsNoLock;
    var r := s.runs[claim];
    Lifecycle.PhaseStaysSound(r, e);
    Discipline.AfterFields(r, e);
    if NeedsNoLock(r, e) && ActivePhase(After(r, e).phase) { NoLockStaysInactive(r, e); }
    forall c | c in now.runs ensures RunKept(now, c, now.runs[c]) {
      if c != claim { assert RunKept(s, c, s.runs[c]); }
    }
  }

  lemma MoveKeeps(s: System, now: System, move: Move)
    requires Kept(s) && Takes(s, now, move)
    ensures Kept(now)
  {
    hide Acts, Lifecycle.SoundPhase, Complete;
    match move
    case Act(claim, e) => ActKeeps(s, now, claim, e);
    case Enter(claim) => BeginIsKept(now, claim);
    case Lock(_) =>
    case Unlock(claim) => CompleteIsInactive(s.runs[claim]);
  }

  lemma BeginIsKept(s: System, claim: string)
    ensures RunKept(s, claim, Begin(claim))
  {
  }

  lemma {:induction false} BehaviourKeeps(states: seq<System>, moves: seq<Move>, i: nat)
    requires Behaviour(states, moves) && i < |states|
    ensures Kept(states[i])
  {
    hide Takes, RunKept;
    if i > 0 {
      BehaviourKeeps(states, moves, i - 1);
      MoveKeeps(states[i - 1], states[i], moves[i - 1]);
    }
  }

  /** Whatever the callers do, at most one claim is Bound or Running, and no two claims hold one identity. */
  lemma OneActiveClaim(states: seq<System>, moves: seq<Move>, i: nat, a: string, b: string)
    requires Behaviour(states, moves) && i < |states| && a in states[i].runs && b in states[i].runs
    ensures ActivePhase(states[i].runs[a].phase) && ActivePhase(states[i].runs[b].phase) ==> a == b
    ensures states[i].runs[a].reserved.Some? && states[i].runs[a].reserved == states[i].runs[b].reserved ==> a == b
  {
    hide Takes;
    BehaviourKeeps(states, moves, i);
    assert RunKept(states[i], a, states[i].runs[a]) && RunKept(states[i], b, states[i].runs[b]);
  }

  /** Every backend call made for a claim names an identity that this claim owns. */
  lemma CallsOwnIdentity(states: seq<System>, moves: seq<Move>, i: nat)
    requires Behaviour(states, moves) && i < |moves| && moves[i].Act? && Discipline.BackendCall(moves[i].event)
    ensures moves[i].claim in states[i].runs
    ensures var r := states[i].runs[moves[i].claim];
            r.reserved.Some? && Discipline.Names(moves[i].event, r.reserved.value) && r.reserved.value in states[i].owners &&
            states[i].owners[r.reserved.value] == moves[i].claim
  {
    BehaviourKeeps(states, moves, i);
    assert Takes(states[i], states[i + 1], moves[i]);
    assert RunKept(states[i], moves[i].claim, states[i].runs[moves[i].claim]);
  }

  /** Each move takes a claim's phase along an allowed transition or leaves it, and never changes a binding. */
  lemma MovesFollowTransitions(states: seq<System>, moves: seq<Move>, i: nat, c: string)
    requires Behaviour(states, moves) && i < |moves| && c in states[i].runs
    ensures c in states[i + 1].runs
    ensures var before, now := states[i].runs[c], states[i + 1].runs[c];
            (now.phase == before.phase || AllowedTransition(before.phase, now.phase)) && (before.bound.Some? ==> now.bound == before.bound)
  {
    hide After, MayWrite;
    BehaviourKeeps(states, moves, i);
    assert Takes(states[i], states[i + 1], moves[i]) && RunKept(states[i], c, states[i].runs[c]);
    if moves[i].Act? && moves[i].claim == c {
      var r, e := states[i].runs[c], moves[i].event;
      Discipline.AfterFields(r, e);
      if e.Wrote? { Discipline.WriteMovesPhase(r, e.op); }
    }
  }
}
