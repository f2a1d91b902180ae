/** The automation limit at the provider: when a payment link is made for more, and what becomes of it. */
module ProviderCap {
  import opened Rows
  import opened Runtime
  import opened Orchestrator
  import opened Protocol
  import opened LiveAction
  import opened History
  import opened CaseColumns
  import opened Provider
  import opened Workers
  import opened ProviderAgreement

  predicate IsOver(amount: int, g: Guardrails) { amount > g.maxAutomatedAmount }

  // ---- Rebills ----

  /** The amount a step writes on the case: that of a failure matched by subscription on an open case. */
  function RebillOf(s: Case, step: Step): Option<int> {
    match step.event
    case FailureReported(_, Some(rebill), _, _) => if IsOpenForRebill(s.state) then rebill.amount else None
    case _ => None
  }

  lemma AmountByRebill(s: Case, step: Step, cfg: Settings)
    requires IsEnabled(s, step)
    ensures Apply(s, step, cfg).amount == if RebillOf(s, step).Some? then RebillOf(s, step).value else s.amount
  {
  }

  /** The last amount a world run writes on the case, if any. */
  ghost function LastRebill(w: World, moves: seq<Move>, v: World, cfg: Settings, caseId: string): Option<int>
    requires IsWorldRun(w, moves, v, cfg, caseId)
    decreases moves
  {
    if moves == [] then None
    else
      var rest := LastRebill(Next(w, moves[0], cfg, caseId), moves[1..], v, cfg, caseId);
      if rest.Some? then rest
      else match StepOf(w, moves[0]) case None => None case Some(step) => RebillOf(w.db, step)
  }

  lemma {:induction false} AmountAfterRun(w: World, moves: seq<Move>, v: World, cfg: Settings, caseId: string)
    requires IsWorldRun(w, moves, v, cfg, caseId)
    ensures var r := LastRebill(w, moves, v, cfg, caseId); v.db.amount == if r.Some? then r.value else w.db.amount
    decreases moves
  {
    if moves != [] {
      var u := Next(w, moves[0], cfg, caseId);
      AmountAfterRun(u, moves[1..], v, cfg, caseId);
      MovesAreProtocolSteps(w, moves[0], cfg, caseId);
      if StepOf(w, moves[0]).Some? {
        AmountByRebill(w.db, StepOf(w, moves[0]).value, cfg);
      }
    }
  }

  lemma {:induction false} OthersKeepPhase(w: World, moves: seq<Move>, v: World, k: nat, cfg: Settings, caseId: string)
    requires IsWorldRun(w, moves, v, cfg, caseId) && HasWorker(w, k)
    requires forall m :: m in moves ==> Mover(m) != Some(k)
    ensures HasWorker(v, k) && v.workers[k] == w.workers[k]
    decreases moves
  {
    if moves != [] {
      assert moves[0] in moves;
      OthersStay(w, moves[0], cfg, caseId);
      OthersKeepPhase(Next(w, moves[0], cfg, caseId), moves[1..], v, k, cfg, caseId);
    }
  }

  /** A contact is claimed only while the amount is within the limit. */
  lemma ClaimIsWithinCap(s: Case, i: nat, now: int, cfg: Settings)
    requires Core(s) && AmountWithinCap(s, cfg.guardrails) && HasAction(s, i) && IsContact(s.actions[i].kind)
    requires s.actions[i].status.Scheduled? && Claim(s, i, now).actions[i].status.Executing?
    ensures s.amount <= cfg.guardrails.maxAutomatedAmount
  {
    OnlyNewestGoesForward(s, i);
  }

  lemma SnapshotExceedsCapExactly(
    w: World, k: nat, i: nat, now: int, at: int, a: seq<Move>, x: World, cfg: Settings, caseId: string)
    requires Core(w.db) && AmountWithinCap(w.db, cfg.guardrails)
    requires CanMove(w, ClaimBy(k, i, now, at))
    requires Next(w, ClaimBy(k, i, now, at), cfg, caseId).workers[k] == Claimed(i)
    requires IsWorldRun(Next(w, ClaimBy(k, i, now, at), cfg, caseId), a, x, cfg, caseId)
    requires forall m :: m in a ==> Mover(m) != Some(k)
    ensures CanMove(x, Snap(k)) && Next(x, Snap(k), cfg, caseId).workers[k] == Ready(i, SnapshotOf(x.db))
    ensures var r := LastRebill(Next(w, ClaimBy(k, i, now, at), cfg, caseId), a, x, cfg, caseId);
            IsOver(x.db.amount, cfg.guardrails) <==> r.Some? && IsOver(r.value, cfg.guardrails)
  {
    var claimed := Next(w, ClaimBy(k, i, now, at), cfg, caseId);
    ClaimIsWithinCap(w.db, i, now, cfg);
    assert claimed.db.amount == w.db.amount;
    OthersKeepPhase(claimed, a, x, k, cfg, caseId);
    AmountAfterRun(claimed, a, x, cfg, caseId);
  }

  /**
    Exactly when the worker asks the provider for more than the automation limit. Between its claim,
    which is within the limit, and its unlocked snapshot (moves `a`), a rebill must write a larger
    amount as the last one; what happens between snapshot and call (moves `b`) plays no part.
   */
  lemma LinkExceedsCapExactly(
    w: World, k: nat, i: nat, now: int, at: int, a: seq<Move>, x: World, b: seq<Move>, y: World,
    outcome: CallOutcome, linkId: string, cfg: Settings, caseId: string)
    requires Core(w.db) && AmountWithinCap(w.db, cfg.guardrails)
    requires CanMove(w, ClaimBy(k, i, now, at))
    requires Next(w, ClaimBy(k, i, now, at), cfg, caseId).workers[k] == Claimed(i)
    requires IsWorldRun(Next(w, ClaimBy(k, i, now, at), cfg, caseId), a, x, cfg, caseId)
    requires forall m :: m in a || m in b ==> Mover(m) != Some(k)
    requires CanMove(x, Snap(k)) && IsWorldRun(Next(x, Snap(k), cfg, caseId), b, y, cfg, caseId)
    requires CanMove(y, Perform(k, outcome, linkId))
    requires |Next(y, Perform(k, outcome, linkId), cfg, caseId).links| == |y.links| + 1
    ensures var r := LastRebill(Next(w, ClaimBy(k, i, now, at), cfg, caseId), a, x, cfg, caseId);
            var link := Next(y, Perform(k, outcome, linkId), cfg, caseId).links[|y.links|];
            && link.reference == Some(i) && link.amount.Some?
            && (IsOver(link.amount.value, cfg.guardrails) <==> r.Some? && IsOver(r.value, cfg.guardrails))
  {
    SnapshotExceedsCapExactly(w, k, i, now, at, a, x, cfg, caseId);
    OthersKeepPhase(Next(x, Snap(k), cfg, caseId), b, y, k, cfg, caseId);
  }

  // ---- What becomes of such a link ----

  /** Snapshots over the limit belong to actions that are no longer the newest. */
  ghost predicate SnapsInOrder(w: World, g: Guardrails) {
    forall k :: 0 <= k < |w.workers| && w.workers[k].Ready? && IsOver(w.workers[k].snap.amount, g) ==>
      w.workers[k].i < |w.db.actions| - 1
  }

  /** Nor is the action of a link over the limit the newest, and it is not EXECUTED. */
  predicate IsOrphan(s: Case, link: Link) {
    link.reference.Some? && link.reference.value < |s.actions| - 1 && !s.actions[link.reference.value].status.Executed?
  }

  ghost predicate OverLinksAreOrphans(w: World, g: Guardrails) {
    forall k :: 0 <= k < |w.links| && w.links[k].amount.Some? && IsOver(w.links[k].amount.value, g) ==>
      IsOrphan(w.db, w.links[k])
  }

  /** An older action never becomes EXECUTED any more. */
  lemma OrphansStay(s: Case, step: Step, cfg: Settings, link: Link)
    requires Core(s) && IsEnabled(s, step) && IsOrphan(s, link)
    requires IsContactAction(s, link.reference.value)
    ensures IsOrphan(Apply(s, step, cfg), link)
  {
    StepEvolvesRows(s, step, cfg);
  }

  lemma MoveKeepsSnapsInOrder(w: World, m: Move, cfg: Settings, caseId: string)
    requires Core(w.db) && AmountWithinCap(w.db, cfg.guardrails) && PhasesSound(w) && CanMove(w, m)
    requires SnapsInOrder(w, cfg.guardrails)
    ensures SnapsInOrder(Next(w, m, cfg, caseId), cfg.guardrails)
  {
    var v := Next(w, m, cfg, caseId);
    MovesStepTo(w, m, cfg, caseId);
    ActionsGrow(w.db, v.db, cfg);
    OthersStay(w, m, cfg, caseId);
    forall k | 0 <= k < |v.workers| && v.workers[k].Ready? && IsOver(v.workers[k].snap.amount, cfg.guardrails)
      ensures v.workers[k].i < |v.db.actions| - 1
    {
      if Mover(m) == Some(k) {
        assert PhaseSound(w.db, w.links, w.workers[k]);
      }
    }
  }

  lemma ActionsGrow(s: Case, t: Case, cfg: Settings)
    requires Core(s) && StepsTo(s, t, cfg)
    ensures |s.actions| <= |t.actions|
  {
    if t != s {
      var step: Step :| IsEnabled(s, step) && t == Apply(s, step, cfg);
      StepEvolvesRows(s, step, cfg);
    }
  }

  lemma CallMakesOrphan(w: World, k: nat, outcome: CallOutcome, linkId: string, cfg: Settings, caseId: string)
    requires CanMove(w, Perform(k, outcome, linkId)) && SnapsInOrder(w, cfg.guardrails)
    requires PhasesSound(w) && LinksAgree(w.db, w.links) && OverLinksAreOrphans(w, cfg.guardrails)
    ensures OverLinksAreOrphans(Performed(w, k, outcome, linkId, caseId), cfg.guardrails)
  {
    var v := Performed(w, k, outcome, linkId, caseId);
    assert PhaseSound(w.db, w.links, w.workers[k]);
    if |v.links| > |w.links| {
      var i := w.workers[k].i;
      forall id: string | Records(w.links, i, id) ensures Holds(w.links, i) {
      }
    }
  }

  lemma MoveKeepsOrphans(w: World, m: Move, cfg: Settings, caseId: string)
    requires Core(w.db) && PhasesSound(w) && LinksAgree(w.db, w.links) && LinksSound(w.db, w.links) && CanMove(w, m)
    requires SnapsInOrder(w, cfg.guardrails) && OverLinksAreOrphans(w, cfg.guardrails)
    ensures OverLinksAreOrphans(Next(w, m, cfg, caseId), cfg.guardrails)
  {
    if m.Perform? {
      CallMakesOrphan(w, m.w, m.outcome, m.linkId, cfg, caseId);
    } else {
      var v := Next(w, m, cfg, caseId);
      MovesAreProtocolSteps(w, m, cfg, caseId);
      SameLinksAmounts(w, m, cfg, caseId);
      forall k | 0 <= k < |v.links| && v.links[k].amount.Some? && IsOver(v.links[k].amount.value, cfg.guardrails)
        ensures IsOrphan(v.db, v.links[k])
      {
        assert IsOrphan(w.db, w.links[k]) && IsContactAction(w.db, w.links[k].reference.value);
        if StepOf(w, m).Some? {
          OrphansStay(w.db, StepOf(w, m).value, cfg, w.links[k]);
        }
      }
    }
  }

  lemma SameLinksAmounts(w: World, m: Move, cfg: Settings, caseId: string)
    requires CanMove(w, m) && !m.Perform?
    ensures var v := Next(w, m, cfg, caseId);
            && |v.links| == |w.links|
            && forall k :: 0 <= k < |w.links| ==>
                 v.links[k].amount == w.links[k].amount && v.links[k].reference == w.links[k].reference
  {
  }

  lemma {:induction false} RunKeepsOrphans(w: World, moves: seq<Move>, v: World, cfg: Settings, caseId: string)
    requires Sound(w, cfg) && cfg.maxAttempts >= 1 && IsWorldRun(w, moves, v, cfg, caseId)
    requires SnapsInOrder(w, cfg.guardrails) && OverLinksAreOrphans(w, cfg.guardrails)
    ensures SnapsInOrder(v, cfg.guardrails) && OverLinksAreOrphans(v, cfg.guardrails)
    decreases moves
  {
    if moves != [] {
      MoveKeepsSound(w, moves[0], cfg, caseId);
      MoveKeepsSnapsInOrder(w, moves[0], cfg, caseId);
      MoveKeepsOrphans(w, moves[0], cfg, caseId);
      RunKeepsOrphans(Next(w, moves[0], cfg, caseId), moves[1..], v, cfg, caseId);
    }
  }

  /**
    A link over the automation limit is never adopted: its action is not the newest and never
    becomes EXECUTED, so no case records it and its payment recovers no case.
   */
  lemma OverLinksAreNeverRecorded(v: World, cfg: Settings, caseId: string, k: nat, at: int)
    requires Arises(v, cfg, caseId) && cfg.maxAttempts >= 1 && k < |v.links|
    requires v.links[k].amount.Some? && IsOver(v.links[k].amount.value, cfg.guardrails)
    ensures IsOrphan(v.db, v.links[k])
    ensures forall i :: 0 <= i < |v.db.actions| && IsPaidFor(v.db.actions[i]) ==>
        v.db.actions[i].link != Some(v.links[k].linkId)
    ensures HandleLinkPaid(v.db, v.links[k].linkId, at) == v.db
  {
    var o: Opening, moves: seq<Move> :| o.now <= o.at && IsWorldRun(StartWorld(o, cfg), moves, v, cfg, caseId);
    StartIsSound(o, cfg);
    RunKeepsOrphans(StartWorld(o, cfg), moves, v, cfg, caseId);
    ArisingWorldsAreSound(v, cfg, caseId);
    OrphansAreUnrecorded(v, k, at);
  }

  lemma OrphansAreUnrecorded(v: World, k: nat, at: int)
    requires LinksSound(v.db, v.links) && LinksAgree(v.db, v.links) && LinkColumnIsLatest(v.db)
    requires k < |v.links| && IsOrphan(v.db, v.links[k])
    ensures forall i :: 0 <= i < |v.db.actions| && IsPaidFor(v.db.actions[i]) ==>
        v.db.actions[i].link != Some(v.links[k].linkId)
    ensures HandleLinkPaid(v.db, v.links[k].linkId, at) == v.db
  {
    forall i | 0 <= i < |v.db.actions| && IsPaidFor(v.db.actions[i])
      ensures v.db.actions[i].link != Some(v.links[k].linkId)
    {
      var id := v.db.actions[i].link.value;
      var l :| 0 <= l < |v.links| && v.links[l].reference == Some(i) && v.links[l].linkId == id;
      assert l != k;
    }
    PaidLinkRecoversExactly(v.db, v.links[k].linkId, at);
  }

  // ---- Which payment recovers ----

  /**
    The payment of a link the provider holds recovers the case exactly if the case is open for it
    and the link belongs to the newest executed link action; older links are paid for nothing.
   */
  lemma PaymentRecoversExactly(v: World, cfg: Settings, caseId: string, k: nat, at: int)
    requires Arises(v, cfg, caseId) && cfg.maxAttempts >= 1 && k < |v.links|
    ensures var t := HandleLinkPaid(v.db, v.links[k].linkId, at);
            && (t != v.db <==> && !v.db.state.Recovered? && !v.db.state.Disputed?
                               && v.links[k].reference == LatestLinkAction(v.db.actions))
            && (t != v.db ==> t.state.Recovered?)
  {
    ArisingWorldsAreSound(v, cfg, caseId);
    PaidLinkRecoversExactly(v.db, v.links[k].linkId, at);
    LatestLinkIsHeld(v, k);
  }

  lemma LatestLinkIsHeld(v: World, k: nat)
    requires LinksSound(v.db, v.links) && LinksAgree(v.db, v.links) && k < |v.links|
    ensures LatestLink(v.db.actions) == Some(v.links[k].linkId) <==>
        v.links[k].reference == LatestLinkAction(v.db.actions)
  {
    var i := LatestLinkAction(v.db.actions);
    if i.Some? {
      var id := v.db.actions[i.value].link.value;
      var l :| 0 <= l < |v.links| && v.links[l].reference == Some(i.value) && v.links[l].linkId == id;
      assert l != k ==> v.links[l].linkId != v.links[k].linkId && v.links[l].reference != v.links[k].reference;
    }
  }
}
