/** Who can move a case on: exactly when workers alone can, and when only an answer of the provider helps. */
module Progress {
  import opened Rows
  import opened Runtime
  import opened Orchestrator
  import opened Protocol
  import opened LiveAction
  import opened AttemptBudget
  import opened Provider
  import opened Workers
  import opened ProviderAgreement
  import opened TransactionMeaning

  /** The case waits, acts, or holds an open promise. */
  predicate IsWorking(s: Case) {
    s.state.Waiting? || s.state.ActionScheduled? || (s.state.AwaitingOutcome? && HasPendingPromise(s.promises))
  }

  /** Due, or claimed by a worker whose lease is over. */
  predicate IsRipe(a: Action, cfg: Settings, now: int) {
    (a.status.Scheduled? && a.scheduledFor <= now) || LeaseExpired(a, cfg, now)
  }

  predicate HoldsLinkClaim(s: Case) {
    |s.actions| > 0 && s.actions[|s.actions| - 1].kind.CreatePaymentLink?
        && s.actions[|s.actions| - 1].status.Executing?
  }

  /** The newest action of `s` has reached another status in `t`, and was not merely cancelled. */
  predicate MovedOn(s: Case, t: Case) {
    0 < |s.actions| <= |t.actions|
    && t.actions[|s.actions| - 1].status != s.actions[|s.actions| - 1].status
    && !t.actions[|s.actions| - 1].status.Cancelled?
  }

  // ---- One step of the protocol ----

  lemma NewestIsEligible(s: Case)
    requires Core(s) && IsWorking(s)
    ensures |s.actions| > 0 && IsLive(s.actions[|s.actions| - 1]) && IsEligible(s, |s.actions| - 1)
  {
    NewestIsNotSuperseded(s);
    if s.state.AwaitingOutcome? {
      NewestPromiseIsPending(s);
    }
  }

  lemma ClaimMovesOn(s: Case, cfg: Settings, now: int, at: int)
    requires Core(s) && IsWorking(s) && |s.actions| > 0
    requires s.actions[|s.actions| - 1].status.Scheduled? && s.actions[|s.actions| - 1].scheduledFor <= now
    ensures MovedOn(s, Apply(s, Step(ClaimDue(|s.actions| - 1, now), at), cfg))
  {
    NewestIsEligible(s);
  }

  lemma LeaseMovesOn(s: Case, cfg: Settings, now: int, at: int)
    requires Core(s) && IsWorking(s) && |s.actions| > 0
    requires LeaseExpired(s.actions[|s.actions| - 1], cfg, now)
    ensures MovedOn(s, Apply(s, Step(LeaseSwept(|s.actions| - 1, now), at), cfg))
  {
    NewestIsEligible(s);
  }

  // ---- Moves of a free worker ----

  /** Anything but a claimed link is moved on by one move, as soon as it is due or its lease is over. */
  lemma RipeWorkMovesOn(v: World, cfg: Settings, caseId: string, k: nat, now: int, at: int) returns (m: Move)
    requires Core(v.db) && IsWorking(v.db) && !HoldsLinkClaim(v.db)
    requires HasWorker(v, k) && v.workers[k].Idle? && v.db.clock < at && now <= at
    requires |v.db.actions| > 0 && IsRipe(v.db.actions[|v.db.actions| - 1], cfg, now)
    ensures CanMove(v, m) && IsSilent(m) && MovedOn(v.db, Next(v, m, cfg, caseId).db)
  {
    var i := |v.db.actions| - 1;
    if LeaseExpired(v.db.actions[i], cfg, now) {
      m := Commit(Step(LeaseSwept(i, now), at));
      LeaseMovesOn(v.db, cfg, now, at);
    } else {
      m := if IsContact(v.db.actions[i].kind) then ClaimBy(k, i, now, at) else Commit(Step(ClaimDue(i, now), at));
      ClaimMovesOn(v.db, cfg, now, at);
    }
  }

  function SweepMoves(k: nat, i: nat, answer: Answer, now: int, at: int): seq<Move> {
    [StartSweep(k, i), Check(k, now), Look(k, answer), Finish(k, now, at)]
  }

  lemma ClaimedLinkIsActing(s: Case)
    requires Core(s) && IsWorking(s) && HoldsLinkClaim(s)
    ensures s.state.ActionScheduled? && !IsSuperseded(s.actions, |s.actions| - 1)
  {
    NewestIsNotSuperseded(s);
  }

  /** A free worker that sweeps the expired claim of a link comes to ask the provider. */
  lemma SweepReachesLookup(v: World, cfg: Settings, caseId: string, k: nat, now: int) returns (w: World)
    requires Core(v.db) && IsWorking(v.db) && HoldsLinkClaim(v.db)
    requires HasWorker(v, k) && v.workers[k].Idle?
    requires LeaseExpired(v.db.actions[|v.db.actions| - 1], cfg, now)
    ensures w == At(v, k, Looking(|v.db.actions| - 1, SnapshotOf(v.db), true))
    ensures IsWorldRun(v, [StartSweep(k, |v.db.actions| - 1), Check(k, now)], w, cfg, caseId)
  {
    var i := |v.db.actions| - 1;
    ClaimedLinkIsActing(v.db);
    var started := Next(v, StartSweep(k, i), cfg, caseId);
    assert CanMove(started, Check(k, now));
    w := Next(started, Check(k, now), cfg, caseId);
    assert w.workers == v.workers[k := Looking(i, SnapshotOf(v.db), true)];
    OneMoveRun(started, Check(k, now), w, cfg, caseId);
    PrefixRun(v, StartSweep(k, i), [Check(k, now)], w, cfg, caseId);
  }

  lemma OneMoveRun(w: World, m: Move, v: World, cfg: Settings, caseId: string)
    requires CanMove(w, m) && v == Next(w, m, cfg, caseId)
    ensures IsWorldRun(w, [m], v, cfg, caseId)
  {
    assert [m][1..] == [];
    assert IsWorldRun(v, [], v, cfg, caseId);
  }

  lemma PrefixRun(w: World, m: Move, rest: seq<Move>, v: World, cfg: Settings, caseId: string)
    requires CanMove(w, m) && IsWorldRun(Next(w, m, cfg, caseId), rest, v, cfg, caseId)
    ensures IsWorldRun(w, [m] + rest, v, cfg, caseId)
  {
    assert ([m] + rest)[1..] == rest;
  }

  lemma {:induction false} RunsCompose(w: World, a: seq<Move>, u: World, b: seq<Move>, v: World, cfg: Settings,
      caseId: string)
    requires IsWorldRun(w, a, u, cfg, caseId) && IsWorldRun(u, b, v, cfg, caseId)
    ensures IsWorldRun(w, a + b, v, cfg, caseId)
    decreases a
  {
    if a == [] {
      assert a + b == b;
    } else {
      RunsCompose(Next(w, a[0], cfg, caseId), a[1..], u, b, v, cfg, caseId);
      PrefixRun(w, a[0], a[1..] + b, v, cfg, caseId);
      assert [a[0]] + (a[1..] + b) == a + b;
    }
  }

  /** A lookup without an answer brings the world back exactly to where the sweep began, so it can go on like this. */
  lemma SilentSweepChangesNothing(v: World, cfg: Settings, caseId: string, k: nat, now: int)
    requires Core(v.db) && IsWorking(v.db) && HoldsLinkClaim(v.db)
    requires HasWorker(v, k) && v.workers[k].Idle?
    requires LeaseExpired(v.db.actions[|v.db.actions| - 1], cfg, now)
    ensures IsWorldRun(v, [StartSweep(k, |v.db.actions| - 1), Check(k, now)] + [Look(k, NoAnswer)], v, cfg, caseId)
  {
    var w := SweepReachesLookup(v, cfg, caseId, k, now);
    var after := Next(w, Look(k, NoAnswer), cfg, caseId);
    assert after.workers == v.workers;
    OneMoveRun(w, Look(k, NoAnswer), after, cfg, caseId);
    RunsCompose(v, [StartSweep(k, |v.db.actions| - 1), Check(k, now)], w, [Look(k, NoAnswer)], v, cfg, caseId);
  }

  /** What the provider lists for the action is one link that may be adopted. */
  predicate ListsAdoptable(w: World, answer: Answer, i: nat, snap: Snapshot, caseId: string) {
    var listed := ByReference(w.links, i);
    answer.Listed? && |listed| == 1 && IsAdoptable(listed[0], i, caseId, snap)
  }

  predicate ListsNothing(w: World, answer: Answer, i: nat) { answer.Listed? && ByReference(w.links, i) == [] }

  /** Where each answer sends a sweep, and a worker whose call was unclear. */
  lemma AnswerLeadsToFinish(w: World, k: nat, answer: Answer, caseId: string)
    requires CanMove(w, Look(k, answer))
    ensures var Looking(i, snap, sweeping) := w.workers[k];
            Looked(w, k, answer, caseId)
            == if answer.NoAnswer? then if sweeping then Idle else MustRetry(i)
               else if ListsNothing(w, answer, i) then if sweeping then SweptAbsent(i) else MustRetry(i)
               else if ListsAdoptable(w, answer, i, snap, caseId) then
                 var found := ByReference(w.links, i)[0].linkId;
                 if sweeping then HasResult(i, Some(found)) else Adopting(i, found)
               else Mismatched(i)
  {
    LookupAcceptsExactly(ByReference(w.links, w.workers[k].i), w.workers[k].i, caseId, w.workers[k].snap);
  }

  /**
    An adoptable link is adopted, one the provider does not have is put back for now while attempts
    are left, and everything else goes to review.
   */
  predicate AnswerSettles(w: World, t: Case, answer: Answer, now: int, caseId: string)
    requires HoldsLinkClaim(w.db)
  {
    var s, i := w.db, |w.db.actions| - 1;
    var a := s.actions[i];
    if ListsAdoptable(w, answer, i, SnapshotOf(s), caseId) then
      SucceedsWith(s, t, i, Some(ByReference(w.links, i)[0].linkId))
    else if ListsNothing(w, answer, i) && a.attempts < a.maxAttempts then
      t == s.(actions := s.actions[i := a.(status := Scheduled, scheduledFor := now, claimedAt := None)],
          clock := t.clock)
    else FailsToReview(s, t, i)
  }

  /** The phase an answer sends a sweep of the newest action to. */
  predicate IsSweptPhase(w: World, answer: Answer, p: Phase, i: nat, caseId: string) {
    if ListsNothing(w, answer, i) then p == SweptAbsent(i)
    else if ListsAdoptable(w, answer, i, SnapshotOf(w.db), caseId) then
      p == HasResult(i, Some(ByReference(w.links, i)[0].linkId))
    else p == Mismatched(i)
  }

  lemma SweptPhaseSettles(w: World, answer: Answer, p: Phase, cfg: Settings, caseId: string, now: int, at: int)
    requires Core(w.db) && IsWorking(w.db) && HoldsLinkClaim(w.db)
    requires LeaseExpired(w.db.actions[|w.db.actions| - 1], cfg, now)
    requires IsSweptPhase(w, answer, p, |w.db.actions| - 1, caseId)
    ensures IsRouted(w.db, FinalEvent(p, now))
    ensures AnswerSettles(w, Apply(w.db, Step(FinalEvent(p, now), at), cfg), answer, now, caseId)
  {
    ClaimedLinkIsActing(w.db);
  }

  lemma AnswerSettlesClaim(w: World, k: nat, answer: Answer, cfg: Settings, caseId: string, now: int, at: int)
    requires Core(w.db) && IsWorking(w.db) && HoldsLinkClaim(w.db) && !answer.NoAnswer?
    requires HasWorker(w, k) && w.workers[k] == Looking(|w.db.actions| - 1, SnapshotOf(w.db), true)
    requires LeaseExpired(w.db.actions[|w.db.actions| - 1], cfg, now) && w.db.clock < at && now <= at
    ensures var u := Next(w, Look(k, answer), cfg, caseId);
            && CanMove(u, Finish(k, now, at))
            && AnswerSettles(w, Next(u, Finish(k, now, at), cfg, caseId).db, answer, now, caseId)
  {
    AnswerLeadsToFinish(w, k, answer, caseId);
    SweptPhaseSettles(w, answer, Looked(w, k, answer, caseId), cfg, caseId, now, at);
  }

  /** The four moves of a sweep settle an expired link claim whatever the answer is, if there is one. */
  lemma AnsweredSweepMovesOn(v: World, cfg: Settings, caseId: string, k: nat, answer: Answer, now: int, at: int)
    returns (u: World)
    requires Core(v.db) && IsWorking(v.db) && HoldsLinkClaim(v.db) && !answer.NoAnswer?
    requires HasWorker(v, k) && v.workers[k].Idle? && v.db.clock < at && now <= at
    requires LeaseExpired(v.db.actions[|v.db.actions| - 1], cfg, now)
    ensures IsWorldRun(v, SweepMoves(k, |v.db.actions| - 1, answer, now, at), u, cfg, caseId)
    ensures AnswerSettles(v, u.db, answer, now, caseId) && MovedOn(v.db, u.db)
  {
    var i := |v.db.actions| - 1;
    var start := [StartSweep(k, i), Check(k, now)];
    var w := SweepReachesLookup(v, cfg, caseId, k, now);
    u := AnswerRuns(w, k, answer, cfg, caseId, now, at);
    assert start + [Look(k, answer), Finish(k, now, at)] == SweepMoves(k, i, answer, now, at);
    RunsCompose(v, start, w, [Look(k, answer), Finish(k, now, at)], u, cfg, caseId);
  }

  lemma AnswerRuns(w: World, k: nat, answer: Answer, cfg: Settings, caseId: string, now: int, at: int)
      returns (u: World)
    requires Core(w.db) && IsWorking(w.db) && HoldsLinkClaim(w.db) && !answer.NoAnswer?
    requires HasWorker(w, k) && w.workers[k] == Looking(|w.db.actions| - 1, SnapshotOf(w.db), true)
    requires LeaseExpired(w.db.actions[|w.db.actions| - 1], cfg, now) && w.db.clock < at && now <= at
    ensures IsWorldRun(w, [Look(k, answer), Finish(k, now, at)], u, cfg, caseId)
    ensures AnswerSettles(w, u.db, answer, now, caseId)
  {
    AnswerSettlesClaim(w, k, answer, cfg, caseId, now, at);
    var x := Next(w, Look(k, answer), cfg, caseId);
    u := Next(x, Finish(k, now, at), cfg, caseId);
    OneMoveRun(x, Finish(k, now, at), u, cfg, caseId);
    PrefixRun(w, Look(k, answer), [Finish(k, now, at)], u, cfg, caseId);
    assert [Look(k, answer)] + [Finish(k, now, at)] == [Look(k, answer), Finish(k, now, at)];
  }

  /**
    How the last transaction of a worker ends while the claim of its contact stands: a result is
    recorded, a failed or still unclear call is retried or goes to review, a refused link goes to
    review, and a sweep that found no link puts the claim back if its lease is over.
   */
  predicate FinishMeans(s: Case, t: Case, p: Phase, now: int, cfg: Settings)
    requires !p.Idle? && HasAction(s, p.i)
  {
    match p
    case HasResult(i, result) => SucceedsWith(s, t, i, result)
    case MustRetry(i) =>
      RetriesOrFails(s, t, i, now, if s.actions[i].attempts < cfg.maxAttempts then RetryScheduled else Failure, cfg)
    case Mismatched(i) => FailsToReview(s, t, i)
    case SweptAbsent(i) =>
      if IsOver(s.actions[i], now, cfg) then PutsBack(s, t, i, now, cfg) else Unchanged(s, t)
    case _ => false
  }

  lemma FinalStepSettles(s: Case, p: Phase, now: int, at: int, cfg: Settings)
    requires p.HasResult? || p.MustRetry? || p.Mismatched? || p.SweptAbsent?
    requires Core(s) && AllWithinBudget(s.actions, cfg) && Stands(s, p.i) && IsContact(s.actions[p.i].kind)
    requires IsRouted(s, FinalEvent(p, now))
    ensures FinishMeans(s, Apply(s, Step(FinalEvent(p, now), at), cfg), p, now, cfg)
  {
    assert WithinBudget(s.actions[p.i], cfg);
    NewestIsNotSuperseded(s);
  }

  /** A link found after an unclear call is first handed on to its completion; everything else ends as said above. */
  lemma FinishSettles(w: World, k: nat, cfg: Settings, caseId: string, now: int, at: int)
    requires CanMove(w, Finish(k, now, at)) && Core(w.db) && AllWithinBudget(w.db.actions, cfg)
    requires Stands(w.db, w.workers[k].i) && IsContact(w.db.actions[w.workers[k].i].kind)
    ensures var p, u := w.workers[k], Next(w, Finish(k, now, at), cfg, caseId);
            if p.Adopting? then u.db == w.db && u.workers[k] == HasResult(p.i, Some(p.found))
            else FinishMeans(w.db, u.db, p, now, cfg) && u.workers[k].Idle?
  {
    if w.workers[k].Adopting? {
      NewestIsNotSuperseded(w.db);
    } else {
      assert !w.workers[k].MustCancel?;
      FinalStepSettles(w.db, w.workers[k], now, at, cfg);
    }
  }

  // ---- A silent provider ----

  /** No inbound event, and no lookup that gets an answer. */
  predicate IsSilent(m: Move) { IsOutbound(m) && (m.Look? ==> m.answer.NoAnswer?) }

  /** The worker cannot finish action `i` without an answer. */
  predicate IsHarmless(p: Phase, i: nat) {
    p.Idle? || (p.Reloaded? && p.sweeping) || (p.Looking? && p.sweeping) || (p.MustCancel? && p.i != i)
  }

  /** A link claimed by a worker that is gone. */
  ghost predicate IsStranded(w: World, i: nat, a: Action) {
    && Core(w.db) && w.db.state.ActionScheduled?
    && |w.db.actions| == i + 1 && w.db.actions[i] == a && a.kind.CreatePaymentLink? && a.status.Executing?
    && forall k :: 0 <= k < |w.workers| ==> IsHarmless(w.workers[k], i)
  }

  lemma NothingIsScheduled(s: Case)
    requires Core(s) && HoldsLinkClaim(s)
    ensures forall j :: 0 <= j < |s.actions| ==> !s.actions[j].status.Scheduled?
  {
  }

  /** Steps about other rows, and steps that need a scheduled row, spare the claim. */
  predicate IsAboutOthers(e: Event, i: nat) {
    e.ClaimDue? || e.DueFollowupRun? || ((e.WaitDone? || e.PtpDone? || e.LeaseSwept? || e.StaleCancel?) && e.i != i)
  }

  lemma OthersSpareTheClaim(s: Case, step: Step, cfg: Settings)
    requires Core(s) && s.state.ActionScheduled? && HoldsLinkClaim(s)
    requires IsEnabled(s, step) && IsAboutOthers(step.event, |s.actions| - 1)
    ensures var t, i := Apply(s, step, cfg), |s.actions| - 1;
            t.state == s.state && |t.actions| == |s.actions| && t.actions[i] == s.actions[i]
  {
    NothingIsScheduled(s);
    if HasAction(s, step.event.i) {
      OnlyNewestGoesForward(s, step.event.i);
    }
  }

  lemma SilentStepIsAboutOthers(w: World, m: Move, i: nat, a: Action)
    requires IsStranded(w, i, a) && CanMove(w, m) && IsSilent(m) && StepOf(w, m).Some?
    ensures IsAboutOthers(StepOf(w, m).value.event, i)
  {
    if m.Finish? {
      assert IsHarmless(w.workers[m.w], i);
    }
  }

  lemma SilentMoverStaysHarmless(w: World, m: Move, i: nat, a: Action, cfg: Settings, caseId: string)
    requires IsStranded(w, i, a) && CanMove(w, m) && IsSilent(m) && Mover(m).Some?
    ensures var v, k := Next(w, m, cfg, caseId), Mover(m).value; k < |v.workers| && IsHarmless(v.workers[k], i)
  {
    var k := Mover(m).value;
    assert IsHarmless(w.workers[k], i);
    NothingIsScheduled(w.db);
    NewestIsNotSuperseded(w.db);
  }

  lemma SilentMoveKeepsStranded(w: World, m: Move, i: nat, a: Action, cfg: Settings, caseId: string)
    requires IsStranded(w, i, a) && CanMove(w, m) && IsSilent(m)
    ensures IsStranded(Next(w, m, cfg, caseId), i, a)
  {
    var v := Next(w, m, cfg, caseId);
    MovesAreProtocolSteps(w, m, cfg, caseId);
    if StepOf(w, m).Some? {
      SilentStepIsAboutOthers(w, m, i, a);
      OthersSpareTheClaim(w.db, StepOf(w, m).value, cfg);
      StepKeepsCore(w.db, StepOf(w, m).value, cfg);
    }
    OthersStay(w, m, cfg, caseId);
    forall j | 0 <= j < |v.workers| ensures IsHarmless(v.workers[j], i) {
      if Mover(m) == Some(j) {
        SilentMoverStaysHarmless(w, m, i, a, cfg, caseId);
      } else if j < |w.workers| {
        assert IsHarmless(w.workers[j], i);
      }
    }
  }

  /** While the provider stays silent, no run of any length brings a stranded link claim forward. */
  lemma {:induction false} SilentRunsKeepStranded(
    w: World, moves: seq<Move>, v: World, i: nat, a: Action, cfg: Settings, caseId: string)
    requires IsStranded(w, i, a) && IsWorldRun(w, moves, v, cfg, caseId)
    requires forall m :: m in moves ==> IsSilent(m)
    ensures IsStranded(v, i, a)
    decreases moves
  {
    if moves != [] {
      assert moves[0] in moves;
      SilentMoveKeepsStranded(w, moves[0], i, a, cfg, caseId);
      SilentRunsKeepStranded(Next(w, moves[0], cfg, caseId), moves[1..], v, i, a, cfg, caseId);
    }
  }

  // ---- The exact condition ----

  /** Some run without inbound events moves the newest action on; a silent one also without any answered lookup. */
  ghost predicate CanProgress(v: World, silent: bool, cfg: Settings, caseId: string) {
    exists moves: seq<Move>, u: World :: Progresses(v, moves, u, silent, cfg, caseId)
  }

  ghost predicate Progresses(v: World, moves: seq<Move>, u: World, silent: bool, cfg: Settings, caseId: string) {
    && IsWorldRun(v, moves, u, cfg, caseId) && MovedOn(v.db, u.db)
    && forall m :: m in moves ==> if silent then IsSilent(m) else IsOutbound(m)
  }

  /** A time at which the newest action is ripe. */
  function RipeTime(s: Case, cfg: Settings): int
    requires |s.actions| > 0
  {
    var a := s.actions[|s.actions| - 1];
    if a.status.Scheduled? || a.claimedAt.None? then a.scheduledFor else a.claimedAt.value + cfg.claimTimeout * SECOND
  }

  lemma WorkGetsRipe(s: Case, cfg: Settings)
    requires Core(s) && AllWithinBudget(s.actions, cfg) && IsWorking(s)
    ensures |s.actions| > 0 && IsRipe(s.actions[|s.actions| - 1], cfg, RipeTime(s, cfg))
  {
    NewestIsEligible(s);
    assert WithinBudget(s.actions[|s.actions| - 1], cfg);
  }

  lemma WithHelper(v: World, moves: seq<Move>, u: World, silent: bool, cfg: Settings, caseId: string)
    requires Progresses(Next(v, Arrive, cfg, caseId), moves, u, silent, cfg, caseId)
    ensures CanProgress(v, silent, cfg, caseId)
  {
    PrefixRun(v, Arrive, moves, u, cfg, caseId);
    assert Progresses(v, [Arrive] + moves, u, silent, cfg, caseId);
  }

  lemma AnswersAlwaysHelp(v: World, cfg: Settings, caseId: string)
    requires Core(v.db) && AllWithinBudget(v.db.actions, cfg) && IsWorking(v.db) && HoldsLinkClaim(v.db)
    ensures CanProgress(v, false, cfg, caseId)
  {
    WorkGetsRipe(v.db, cfg);
    var w, k, now := Next(v, Arrive, cfg, caseId), |v.workers|, RipeTime(v.db, cfg);
    var at := if now > v.db.clock then now else v.db.clock + 1;
    var u := AnsweredSweepMovesOn(w, cfg, caseId, k, Listed, now, at);
    assert Progresses(w, SweepMoves(k, |v.db.actions| - 1, Listed, now, at), u, false, cfg, caseId);
    WithHelper(v, SweepMoves(k, |v.db.actions| - 1, Listed, now, at), u, false, cfg, caseId);
  }

  lemma OtherWorkNeedsNoAnswer(v: World, silent: bool, cfg: Settings, caseId: string)
    requires Core(v.db) && AllWithinBudget(v.db.actions, cfg) && IsWorking(v.db) && !HoldsLinkClaim(v.db)
    ensures CanProgress(v, silent, cfg, caseId)
  {
    WorkGetsRipe(v.db, cfg);
    var w, k, now := Next(v, Arrive, cfg, caseId), |v.workers|, RipeTime(v.db, cfg);
    var at := if now > v.db.clock then now else v.db.clock + 1;
    var m := RipeWorkMovesOn(w, cfg, caseId, k, now, at);
    var u := Next(w, m, cfg, caseId);
    OneMoveRun(w, m, u, cfg, caseId);
    assert Progresses(w, [m], u, silent, cfg, caseId);
    WithHelper(v, [m], u, silent, cfg, caseId);
  }

  /**
    No case is stuck for want of an inbound event: from every world that can arise, a case that
    waits, acts or holds an open promise can be moved on by workers, if lookups are answered.
   */
  lemma NeverStuckWithAnswers(v: World, cfg: Settings, caseId: string)
    requires Arises(v, cfg, caseId) && cfg.maxAttempts >= 1 && IsWorking(v.db)
    ensures CanProgress(v, false, cfg, caseId)
  {
    ArisingWorldsAreSound(v, cfg, caseId);
    if HoldsLinkClaim(v.db) {
      AnswersAlwaysHelp(v, cfg, caseId);
    } else {
      OtherWorkNeedsNoAnswer(v, false, cfg, caseId);
    }
  }

  /**
    Once every worker in flight is gone, the case can go on without an answer from the provider
    exactly if its newest action is not a claimed payment link: nothing but an answered lookup
    recovers that claim, however often it is swept.
   */
  lemma StuckExactly(v: World, cfg: Settings, caseId: string)
    requires Arises(v, cfg, caseId) && cfg.maxAttempts >= 1 && IsWorking(v.db)
    requires forall k :: 0 <= k < |v.workers| ==> v.workers[k].Idle?
    ensures CanProgress(v, true, cfg, caseId) <==> !HoldsLinkClaim(v.db)
  {
    ArisingWorldsAreSound(v, cfg, caseId);
    if HoldsLinkClaim(v.db) {
      SilenceStrands(v, cfg, caseId);
    } else {
      OtherWorkNeedsNoAnswer(v, true, cfg, caseId);
    }
  }

  lemma SilenceStrands(v: World, cfg: Settings, caseId: string)
    requires Core(v.db) && IsWorking(v.db) && HoldsLinkClaim(v.db)
    requires forall k :: 0 <= k < |v.workers| ==> v.workers[k].Idle?
    ensures !CanProgress(v, true, cfg, caseId)
  {
    var i := |v.db.actions| - 1;
    ClaimedLinkIsActing(v.db);
    assert IsStranded(v, i, v.db.actions[i]);
    forall moves: seq<Move>, u: World ensures !Progresses(v, moves, u, true, cfg, caseId) {
      if Progresses(v, moves, u, true, cfg, caseId) {
        SilentRunsKeepStranded(v, moves, u, i, v.db.actions[i], cfg, caseId);
      }
    }
  }
}
