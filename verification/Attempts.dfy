/** What one worker does between its claim and its call, in any run of the world. */
module Attempts {
  import opened Rows
  import opened Protocol
  import opened Workers
  import opened ProviderAgreement

  /** The moves of one worker, in order. */
  function OwnMoves(moves: seq<Move>, k: nat): seq<Move> {
    if moves == [] then []
    else (if Mover(moves[0]) == Some(k) then [moves[0]] else []) + OwnMoves(moves[1..], k)
  }

  function PhaseOf(w: World, k: nat): Phase { if k < |w.workers| then w.workers[k] else Idle }

  ghost predicate EndsWithClaim(own: seq<Move>, i: nat) {
    |own| >= 1 && own[|own| - 1].ClaimBy? && own[|own| - 1].i == i
  }

  ghost predicate EndsWithSnapshot(own: seq<Move>, k: nat, i: nat) {
    |own| >= 2 && own[|own| - 1] == Snap(k) && own[|own| - 2].ClaimBy? && own[|own| - 2].i == i
  }

  /** How a worker that is about to call got there, since it was in phase `before`. */
  ghost predicate CameByClaim(before: Phase, own: seq<Move>, after: Phase, k: nat) {
    && (after.Claimed? ==> (own == [] && before == after) || EndsWithClaim(own, after.i))
    && (after.Ready? ==>
        || (own == [] && before == after)
        || (own == [Snap(k)] && before == Claimed(after.i))
        || EndsWithSnapshot(own, k, after.i))
  }

  /** One move, as worker `k` sees it. */
  ghost predicate LeadsOn(p: Phase, m: Move, q: Phase, k: nat) {
    && (Mover(m) != Some(k) ==> q == p)
    && (Mover(m) == Some(k) && q.Claimed? ==> m.ClaimBy? && m.i == q.i)
    && (Mover(m) == Some(k) && q.Ready? ==> m == Snap(k) && p == Claimed(q.i))
  }

  lemma MoveFromPhase(w: World, m: Move, k: nat, cfg: Settings, caseId: string)
    requires CanMove(w, m)
    ensures LeadsOn(PhaseOf(w, k), m, PhaseOf(Next(w, m, cfg, caseId), k), k)
  {
    OthersStay(w, m, cfg, caseId);
  }

  lemma OneMoreBefore(p: Phase, m: Move, q: Phase, own: seq<Move>, after: Phase, k: nat)
    requires LeadsOn(p, m, q, k) && CameByClaim(q, own, after, k)
    ensures CameByClaim(p, (if Mover(m) == Some(k) then [m] else []) + own, after, k)
  {
    if Mover(m) == Some(k) {
      var all := [m] + own;
      assert own != [] ==> all[|all| - 1] == own[|own| - 1];
      assert |own| >= 2 ==> all[|all| - 2] == own[|own| - 2];
    } else {
      assert [] + own == own;
    }
  }

  lemma {:induction false} RunFromPhase(w: World, moves: seq<Move>, v: World, k: nat, cfg: Settings, caseId: string)
    requires IsWorldRun(w, moves, v, cfg, caseId)
    ensures CameByClaim(PhaseOf(w, k), OwnMoves(moves, k), PhaseOf(v, k), k)
    decreases moves
  {
    if moves != [] {
      var u := Next(w, moves[0], cfg, caseId);
      MoveFromPhase(w, moves[0], k, cfg, caseId);
      RunFromPhase(u, moves[1..], v, k, cfg, caseId);
      OneMoreBefore(PhaseOf(w, k), moves[0], PhaseOf(u, k), OwnMoves(moves[1..], k), PhaseOf(v, k), k);
    }
  }

  /**
    Whoever is about to call the provider has done nothing since its claim but take the snapshot. A
    lookup may come before a call only in the name of an earlier attempt or of another worker.
   */
  lemma NoLookupBetweenClaimAndCall(o: Opening, moves: seq<Move>, v: World, k: nat, cfg: Settings, caseId: string)
    requires IsWorldRun(StartWorld(o, cfg), moves, v, cfg, caseId)
    requires HasWorker(v, k) && v.workers[k].Ready?
    ensures EndsWithSnapshot(OwnMoves(moves, k), k, v.workers[k].i)
  {
    RunFromPhase(StartWorld(o, cfg), moves, v, k, cfg, caseId);
  }
}
