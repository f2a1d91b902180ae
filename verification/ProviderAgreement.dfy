/** Whole runs of the world: agreement with the provider, bounded performs, and late workers. */
module ProviderAgreement {
  import opened Rows
  import opened Runtime
  import opened Protocol
  import opened AttemptBudget
  import opened Runs
  import opened Termination
  import opened Provider
  import opened Workers

  /** Every link at the provider is one this client asked for, up to its status. */
  ghost predicate OurLinks(links: seq<Link>, caseId: string) {
    forall k :: 0 <= k < |links| ==>
      && links[k].reference.Some? && links[k].amount.Some?
      && links[k].currency.Some? && links[k].currency.value != ""
      && links[k] == RequestedLink(links[k].linkId, links[k].reference.value, caseId,
                                   Snapshot(links[k].amount.value, links[k].currency.value)).(status := links[k].status)
  }

  ghost predicate IsWorldRun(w: World, moves: seq<Move>, v: World, cfg: Settings, caseId: string)
    decreases moves
  {
    if moves == [] then v == w
    else CanMove(w, moves[0]) && IsWorldRun(Next(w, moves[0], cfg, caseId), moves[1..], v, cfg, caseId)
  }

  function StartWorld(o: Opening, cfg: Settings): World {
    World(Opened(o, cfg), [], [], multiset{})
  }

  ghost predicate Arises(v: World, cfg: Settings, caseId: string) {
    exists o: Opening, moves: seq<Move> :: o.now <= o.at && IsWorldRun(StartWorld(o, cfg), moves, v, cfg, caseId)
  }

  lemma StartIsSound(o: Opening, cfg: Settings)
    requires o.now <= o.at && cfg.maxAttempts >= 1
    ensures Sound(StartWorld(o, cfg), cfg)
  {
    OpeningKeepsInvariant(o, cfg);
    OpenedCaseHasNoLink(o, cfg);
    var w := StartWorld(o, cfg);
    assert forall i: nat :: AboutToPerform(w.workers, i) == {};
  }

  lemma OpenedCaseHasNoLink(o: Opening, cfg: Settings)
    ensures LinksAgree(Opened(o, cfg), [])
  {
    if !o.alreadyCaptured {
      var s := Opened(o, cfg);
      assert |s.actions| == 1;
      assert s.actions[0].status.Executed? ==> s.actions[0].kind.Escalate? || s.actions[0].kind.Stop?;
    }
  }

  lemma MoveKeepsOurLinks(w: World, m: Move, cfg: Settings, caseId: string)
    requires PhasesSound(w) && CanMove(w, m) && OurLinks(w.links, caseId)
    ensures OurLinks(Next(w, m, cfg, caseId).links, caseId)
  {
    if m.Perform? {
      assert PhaseSound(w.db, w.links, w.workers[m.w]);
    }
  }

  lemma {:induction false} RunKeepsSound(w: World, moves: seq<Move>, v: World, cfg: Settings, caseId: string)
    requires Sound(w, cfg) && OurLinks(w.links, caseId) && cfg.maxAttempts >= 1
    requires IsWorldRun(w, moves, v, cfg, caseId)
    ensures Sound(v, cfg) && OurLinks(v.links, caseId)
    decreases moves
  {
    if moves != [] {
      MoveKeepsSound(w, moves[0], cfg, caseId);
      MoveKeepsOurLinks(w, moves[0], cfg, caseId);
      RunKeepsSound(Next(w, moves[0], cfg, caseId), moves[1..], v, cfg, caseId);
    }
  }

  lemma ArisingWorldsAreSound(v: World, cfg: Settings, caseId: string)
    requires Arises(v, cfg, caseId) && cfg.maxAttempts >= 1
    ensures Sound(v, cfg) && OurLinks(v.links, caseId)
  {
    var o: Opening, moves: seq<Move> :| o.now <= o.at && IsWorldRun(StartWorld(o, cfg), moves, v, cfg, caseId);
    StartIsSound(o, cfg);
    RunKeepsSound(StartWorld(o, cfg), moves, v, cfg, caseId);
  }

  /** How many moves of a world run change more of the case than its clock. */
  ghost function WorldChanges(w: World, moves: seq<Move>, v: World, cfg: Settings, caseId: string): nat
    requires IsWorldRun(w, moves, v, cfg, caseId)
    decreases moves
  {
    if moves == [] then 0
    else
      var u := Next(w, moves[0], cfg, caseId);
      (if u.db == w.db.(clock := u.db.clock) then 0 else 1) + WorldChanges(u, moves[1..], v, cfg, caseId)
  }

  /**
    A world run is a protocol run of its case, with the same changes, and its inbound steps are
    exactly inbound commits of the run; so all protocol results hold of it.
   */
  lemma {:induction false} WorldRunsAreProtocolRuns(
    w: World, moves: seq<Move>, v: World, cfg: Settings, caseId: string) returns (steps: seq<Step>)
    requires IsWorldRun(w, moves, v, cfg, caseId)
    ensures IsRun(w.db, steps, v.db, cfg)
    ensures forall step :: step in steps && IsInbound(step.event) ==> Commit(step) in moves
    ensures Changes(w.db, steps, v.db, cfg) == WorldChanges(w, moves, v, cfg, caseId)
    decreases moves
  {
    if moves == [] {
      steps := [];
    } else {
      var u := Next(w, moves[0], cfg, caseId);
      var rest := WorldRunsAreProtocolRuns(u, moves[1..], v, cfg, caseId);
      MovesAreProtocolSteps(w, moves[0], cfg, caseId);
      if StepOf(w, moves[0]).None? {
        steps := rest;
      } else {
        steps := [StepOf(w, moves[0]).value] + rest;
        assert steps[1..] == rest;
      }
      assert forall step :: step in steps ==> step in rest || StepOf(w, moves[0]) == Some(step);
    }
  }

  /** No inbound event is committed. */
  predicate IsOutbound(m: Move) { m.Commit? ==> !IsInbound(m.step.event) }

  /**
    Without inbound events, workers, sweeps, crashes and a provider that answers as it likes change
    the case a bounded number of times, however long the run.
   */
  lemma WorldRunsAreBounded(w: World, moves: seq<Move>, v: World, cfg: Settings, caseId: string)
    requires Sound(w, cfg) && cfg.maxAttempts >= 1 && IsWorldRun(w, moves, v, cfg, caseId)
    requires forall m :: m in moves ==> IsOutbound(m)
    ensures WorldChanges(w, moves, v, cfg, caseId) + Measure(v.db, cfg) <= Measure(w.db, cfg)
  {
    var steps := WorldRunsAreProtocolRuns(w, moves, v, cfg, caseId);
    forall k | 0 <= k < |steps| ensures !IsInbound(steps[k].event) {
      assert steps[k] in steps;
      assert IsInbound(steps[k].event) ==> Commit(steps[k]) in moves && !IsOutbound(Commit(steps[k]));
    }
    WorkerRunsAreBounded(w.db, steps, v.db, cfg);
  }

  /**
    Provider agreement: however calls time out, repeat or come late, the provider holds at most
    one link per action, and an EXECUTED payment-link action records exactly that link.
   */
  lemma ProviderAgrees(v: World, cfg: Settings, caseId: string, i: nat)
    requires Arises(v, cfg, caseId) && cfg.maxAttempts >= 1 && HasAction(v.db, i)
    ensures |ByReference(v.links, i)| <= 1
    ensures v.db.actions[i].kind.CreatePaymentLink? && v.db.actions[i].status.Executed? ==>
              && |ByReference(v.links, i)| == 1
              && v.db.actions[i].link == Some(ByReference(v.links, i)[0].linkId)
  {
    ArisingWorldsAreSound(v, cfg, caseId);
    ByReferenceIsUnique(v.links, i);
    if v.db.actions[i].kind.CreatePaymentLink? && v.db.actions[i].status.Executed? {
      var id := v.db.actions[i].link.value;
      var k :| 0 <= k < |v.links| && v.links[k].reference == Some(i) && v.links[k].linkId == id;
      assert Holds(v.links, i);
      var only := ByReference(v.links, i)[0];
      assert only in ByReference(v.links, i);
      var j :| 0 <= j < |v.links| && v.links[j] == only;
      assert j == k;
    }
  }

  /** Two payment-link actions never record the same link. */
  lemma LinksAreNotShared(v: World, cfg: Settings, caseId: string, i: nat, j: nat)
    requires Arises(v, cfg, caseId) && cfg.maxAttempts >= 1
    requires i < j && IsLinkAction(v.db, i) && IsLinkAction(v.db, j)
    requires v.db.actions[i].status.Executed? && v.db.actions[j].status.Executed?
    ensures v.db.actions[i].link != v.db.actions[j].link
  {
    ArisingWorldsAreSound(v, cfg, caseId);
    var k :| 0 <= k < |v.links| && v.links[k].reference == Some(i) && v.links[k].linkId == v.db.actions[i].link.value;
    var l :| 0 <= l < |v.links| && v.links[l].reference == Some(j) && v.links[l].linkId == v.db.actions[j].link.value;
    assert k != l;
  }

  /** An action is performed externally at most maxAttempts times, although the claim never looks at the budget. */
  lemma PerformsAreBounded(v: World, cfg: Settings, caseId: string, i: nat)
    requires Arises(v, cfg, caseId) && cfg.maxAttempts >= 1
    ensures v.calls[i] <= cfg.maxAttempts
  {
    ArisingWorldsAreSound(v, cfg, caseId);
    if HasAction(v.db, i) {
      assert WithinBudget(v.db.actions[i], cfg);
    }
    assert v.calls[i] + |AboutToPerform(v.workers, i)| <= if HasAction(v.db, i) then v.db.actions[i].attempts else 0;
  }

  /**
    A worker may always commit, however late: the delayed cancel in particular only ever meets
    actions that are still superseded or a case that is still latched.
   */
  lemma LateWorkersCanAlwaysFinish(v: World, cfg: Settings, caseId: string, k: nat, now: int)
    requires Arises(v, cfg, caseId) && cfg.maxAttempts >= 1 && HasWorker(v, k)
    requires var p := v.workers[k];
             p.HasResult? || p.MustRetry? || p.Mismatched? || p.MustCancel? || p.SweptAbsent? || p.Adopting?
    ensures IsRouted(v.db, FinalEvent(v.workers[k], now))
  {
    ArisingWorldsAreSound(v, cfg, caseId);
    SoundPhasesAreRouted(v.db, v.links, v.workers[k], now);
  }

  lemma SoundPhasesAreRouted(s: Case, links: seq<Link>, p: Phase, now: int)
    requires PhaseSound(s, links, p)
    requires p.HasResult? || p.MustRetry? || p.Mismatched? || p.MustCancel? || p.SweptAbsent? || p.Adopting?
    ensures IsRouted(s, FinalEvent(p, now))
  {
  }

  /**
    When the provider has the link of an action, a lookup that gets an answer never reports it
    absent, and adopts it exactly while amount and currency are unchanged and it is still usable.
   */
  lemma LookupFindsOurLink(v: World, cfg: Settings, caseId: string, k: nat)
    requires Arises(v, cfg, caseId) && cfg.maxAttempts >= 1
    requires HasWorker(v, k) && v.workers[k].Looking? && Holds(v.links, v.workers[k].i)
    ensures var Looking(i, snap, sweeping) := v.workers[k];
            var link := if |ByReference(v.links, i)| == 1 then Some(ByReference(v.links, i)[0]) else None;
            && link.Some?
            && Looked(v, k, Listed, caseId) ==
               if link.value.amount == Some(snap.amount) && link.value.currency == Some(snap.currency)
                  && !link.value.status.Expired? && !link.value.status.LinkCancelled?
               then (if sweeping then HasResult(i, Some(link.value.linkId)) else Adopting(i, link.value.linkId))
               else Mismatched(i)
  {
    ArisingWorldsAreSound(v, cfg, caseId);
    var Looking(i, snap, sweeping) := v.workers[k];
    ByReferenceIsUnique(v.links, i);
    var link := ByReference(v.links, i)[0];
    assert link in ByReference(v.links, i);
    OwnLinkIsAdoptedExactly(v.links, link, link.linkId, i, caseId, Snapshot(link.amount.value, link.currency.value),
        snap);
  }
}
