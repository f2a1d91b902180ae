/** Everything the single steps keep, carried over whole runs. */
module Runs {
  import opened Rows
  import opened GuardrailEngine
  import opened PolicyDispatch
  import opened Orchestrator
  import opened Protocol
  import opened LiveAction
  import opened History
  import opened ContactCap
  import opened AttemptBudget
  import opened EffectLedger
  import opened PromiseLedger
  import opened Latch
  import opened CaseColumns

  ghost predicate Invariant(s: Case, cfg: Settings) {
    && Core(s)
    && Capped(s.actions, cfg.guardrails) && WaitsOnce(s.actions)
    && AllWithinBudget(s.actions, cfg)
    && EffectsOnce(s)
    && DecisionsBounded(s, cfg.guardrails)
    && NeverBrokenEarly(s, cfg)
    && AmountWithinCap(s, cfg.guardrails)
    && LinkColumnIsLatest(s)
  }

  lemma StepKeepsInvariant(s: Case, step: Step, cfg: Settings)
    requires Invariant(s, cfg) && IsEnabled(s, step) && cfg.maxAttempts >= 1
    ensures Invariant(Apply(s, step, cfg), cfg)
  {
    StepKeepsCore(s, step, cfg);
    StepKeepsCap(s, step, cfg);
    StepKeepsBudget(s, step, cfg);
    StepKeepsEffectsOnce(s, step, cfg);
    StepKeepsDecisionsBounded(s, step, cfg);
    StepNeverBreaksEarly(s, step, cfg);
    StepKeepsAmountWithinCap(s, step, cfg);
    StepKeepsLinkColumn(s, step, cfg);
  }

  lemma RecordedOpening(s: Case, chosen: ActionType, cfg: Settings, now: int, at: int)
    requires s.actions == [] && s.promises == [] && s.decisions == [] && s.effects == [] && s.failures == 1
    requires chosen != FollowUpPtp && cfg.maxAttempts >= 1
    ensures var t := RecordDecision(s, chosen, ByFailure, cfg, now, at);
            && AllWithinBudget(t.actions, cfg) && EffectsOnce(t)
            && DecisionsBounded(t, cfg.guardrails) && NeverBrokenEarly(t, cfg)
  {
    var t := RecordDecision(s, chosen, ByFailure, cfg, now, at);
    AppendCause([], Decision(chosen, ByFailure), ByFailure);
    AppendCause([], Decision(chosen, ByFailure), ByWait);
    assert [] + [Decision(chosen, ByFailure)] == t.decisions;
    assert ExecutedWaits(t.actions) == {};
  }

  lemma OpeningKeepsInvariant(o: Opening, cfg: Settings)
    requires o.now <= o.at && cfg.maxAttempts >= 1
    ensures Invariant(Opened(o, cfg), cfg)
  {
    OpenedCaseIsCore(o, cfg);
    OpenedCaseIsCapped(o, cfg);
    var s := Opened(o, cfg);
    if o.alreadyCaptured {
      assert s.actions == [] && s.promises == [] && s.decisions == [] && s.effects == [];
      assert ExecutedWaits(s.actions) == {};
    } else {
      var start := Case(Diagnosed, if o.amount.Some? then o.amount.value else 0, o.currency, o.category, None,
                        o.subscriptionLinked, [], [], 1, [], [], o.at);
      var seen, flushed := Seen([], 0), Seen([], 1);
      var view := ChoiceIsGuarded(o.mode, seen, flushed, SubjectOf(start), cfg, o.now);
      RecordedOpening(start, Choice(o.mode, seen, flushed, SubjectOf(start), cfg, o.now), cfg, o.now, o.at);
    }
  }

  lemma {:induction false} RunKeepsInvariant(s: Case, steps: seq<Step>, t: Case, cfg: Settings)
    requires Invariant(s, cfg) && IsRun(s, steps, t, cfg) && cfg.maxAttempts >= 1
    ensures Invariant(t, cfg)
    decreases steps
  {
    if steps != [] {
      StepKeepsInvariant(s, steps[0], cfg);
      RunKeepsInvariant(Apply(s, steps[0], cfg), steps[1..], t, cfg);
    }
  }

  /** Every reachable case satisfies every invariant. */
  lemma ReachableCasesAreSound(s: Case, cfg: Settings)
    requires Reachable(s, cfg) && cfg.maxAttempts >= 1
    ensures Invariant(s, cfg)
  {
    var o: Opening, steps: seq<Step> :| o.now <= o.at && IsRun(Opened(o, cfg), steps, s, cfg);
    OpeningKeepsInvariant(o, cfg);
    RunKeepsInvariant(Opened(o, cfg), steps, s, cfg);
  }

  lemma ReachableCasesAreCore(s: Case, cfg: Settings)
    requires Reachable(s, cfg) && cfg.maxAttempts >= 1
    ensures Core(s)
  {
    ReachableCasesAreSound(s, cfg);
  }

  // ---- Reachable cases step by step ----

  lemma {:induction false} RunThenStep(s: Case, steps: seq<Step>, t: Case, step: Step, cfg: Settings)
    requires IsRun(s, steps, t, cfg) && IsEnabled(t, step)
    ensures IsRun(s, steps + [step], Apply(t, step, cfg), cfg)
    decreases steps
  {
    if steps == [] {
      assert ([] + [step])[1..] == [];
      assert IsRun(Apply(t, step, cfg), [], Apply(t, step, cfg), cfg);
    } else {
      RunThenStep(Apply(s, steps[0], cfg), steps[1..], t, step, cfg);
      assert (steps + [step])[1..] == steps[1..] + [step];
    }
  }

  lemma ReachableNext(s: Case, step: Step, cfg: Settings)
    requires Reachable(s, cfg) && IsEnabled(s, step)
    ensures Reachable(Apply(s, step, cfg), cfg)
  {
    var o: Opening, steps: seq<Step> :| o.now <= o.at && IsRun(Opened(o, cfg), steps, s, cfg);
    RunThenStep(Opened(o, cfg), steps, s, step, cfg);
  }

  lemma OpenedIsReachable(o: Opening, cfg: Settings)
    requires o.now <= o.at
    ensures Reachable(Opened(o, cfg), cfg)
  {
    assert IsRun(Opened(o, cfg), [], Opened(o, cfg), cfg);
  }

  lemma ReachableBudgetIsKept(s: Case, cfg: Settings)
    requires Reachable(s, cfg) && cfg.maxAttempts >= 1
    ensures Core(s) && AllWithinBudget(s.actions, cfg)
  {
    ReachableCasesAreSound(s, cfg);
  }

  lemma ReachableWaitsAreOnce(s: Case, cfg: Settings)
    requires Reachable(s, cfg) && cfg.maxAttempts >= 1
    ensures Core(s) && WaitsOnce(s.actions)
  {
    ReachableCasesAreSound(s, cfg);
  }

  lemma ReachablePromisesAreOnTime(s: Case, cfg: Settings)
    requires Reachable(s, cfg) && cfg.maxAttempts >= 1
    ensures Core(s) && NeverBrokenEarly(s, cfg)
  {
    ReachableCasesAreSound(s, cfg);
  }

  lemma ReachableEffectsAreOnce(s: Case, cfg: Settings)
    requires Reachable(s, cfg) && cfg.maxAttempts >= 1
    ensures Core(s) && EffectsOnce(s)
  {
    ReachableCasesAreSound(s, cfg);
  }

  lemma ReachableAmountIsWithinCap(s: Case, cfg: Settings)
    requires Reachable(s, cfg) && cfg.maxAttempts >= 1
    ensures Core(s) && AmountWithinCap(s, cfg.guardrails)
  {
    ReachableCasesAreSound(s, cfg);
  }

  lemma ReachableLinkIsLatest(s: Case, cfg: Settings)
    requires Reachable(s, cfg) && cfg.maxAttempts >= 1
    ensures LinkColumnIsLatest(s)
  {
    ReachableCasesAreSound(s, cfg);
  }

  // ---- What holds of every reachable case ----

  lemma StatesSayNewest(s: Case)
    requires StateMatchesNewest(s)
    ensures s.state.AwaitingOutcome? && HasPendingPromise(s.promises) ==>
              && NewestIsLive(s) && s.actions[|s.actions| - 1].kind.FollowUpPtp?
              && s.actions[|s.actions| - 1].promise == Some(|s.promises| - 1)
    ensures IsTerminal(s.state) ==> forall i :: 0 <= i < |s.actions| ==> !s.actions[i].status.Scheduled?
  {
  }

  lemma OnlyNewestIsOpen(s: Case)
    requires OnlyNewestScheduled(s) && PromisesInOrder(s)
    ensures forall i :: 0 <= i < |s.actions| && s.actions[i].status.Scheduled? ==> i == |s.actions| - 1
    ensures forall p :: 0 <= p < |s.promises| && s.promises[p].status.Pending? ==> p == |s.promises| - 1
  {
  }

  /** The committed states, and what they say about the newest action and the promises. */
  lemma CommittedStates(s: Case, cfg: Settings)
    requires Reachable(s, cfg) && cfg.maxAttempts >= 1
    ensures !s.state.Detected? && !s.state.Diagnosed? && !s.state.DecisionReady?
    ensures s.state.Waiting? ==> NewestIsLive(s) && IsWait(s.actions[|s.actions| - 1].kind)
    ensures s.state.ActionScheduled? ==> NewestIsLive(s) && IsContact(s.actions[|s.actions| - 1].kind)
    ensures forall i :: 0 <= i < |s.actions| && s.actions[i].status.Scheduled? ==> i == |s.actions| - 1
    ensures s.state.AwaitingOutcome? && HasPendingPromise(s.promises) ==>
              && NewestIsLive(s) && s.actions[|s.actions| - 1].kind.FollowUpPtp?
              && s.actions[|s.actions| - 1].promise == Some(|s.promises| - 1)
    ensures HasPendingPromise(s.promises) ==> !s.state.Waiting? && !s.state.ActionScheduled? && !s.state.Recovered?
    ensures IsTerminal(s.state) ==> forall i :: 0 <= i < |s.actions| ==> !s.actions[i].status.Scheduled?
    ensures forall p :: 0 <= p < |s.promises| && s.promises[p].status.Pending? ==> p == |s.promises| - 1
  {
    ReachableCasesAreCore(s, cfg);
    StatesSayNewest(s);
    OnlyNewestIsOpen(s);
  }

  /** The contact limits in every reachable case, for every week. */
  lemma ContactLimitsHold(s: Case, cfg: Settings, week: int)
    requires Reachable(s, cfg) && cfg.maxAttempts >= 1
    ensures |Contacts(s.actions)| <= cfg.guardrails.maxContacts
    ensures |ContactsUpTo(s.actions, week)| <= cfg.guardrails.maxContactsPerWeek
    ensures forall i, j :: i in Contacts(s.actions) && j in Contacts(s.actions) && i < j ==>
              s.actions[j].createdAt - s.actions[i].createdAt >= cfg.guardrails.minIntervalHours * HOUR
  {
    ReachableCasesAreSound(s, cfg);
    ContactsStayWithinLimits(s, cfg.guardrails, week);
  }

  /** Attempts and total backoff of every action of every reachable case. */
  lemma AttemptLimitsHold(s: Case, cfg: Settings, i: nat)
    requires Reachable(s, cfg) && cfg.maxAttempts >= 1 && i < |s.actions|
    ensures var a := s.actions[i];
            && (a.status.Scheduled? ==> a.attempts < cfg.maxAttempts)
            && (a.status.Executing? ==> 1 <= a.attempts)
            && a.attempts <= cfg.maxAttempts
            && a.backoff <= cfg.retryDelay * (Pow2(cfg.maxAttempts - 1) - 1)
  {
    ReachableCasesAreSound(s, cfg);
    WithinBudgetLimits(s.actions[i], cfg);
  }

  lemma WithinBudgetLimits(a: Action, cfg: Settings)
    requires WithinBudget(a, cfg) && cfg.maxAttempts >= 1
    ensures a.backoff <= cfg.retryDelay * (Pow2(cfg.maxAttempts - 1) - 1)
  {
    MoreDelaysAllowMoreBackoff(DelaysSoFar(a), cfg.maxAttempts - 1, cfg);
  }

  /** Effects are applied at most once per action, waits are executed at most once per kind, decisions are bounded. */
  lemma DecisionLimitsHold(s: Case, cfg: Settings)
    requires Reachable(s, cfg) && cfg.maxAttempts >= 1
    ensures forall i :: 0 <= i < |s.actions| ==> multiset(s.effects)[i] <= 1
    ensures CountCause(s.decisions, ByFailure) <= cfg.guardrails.maxTotalAttempts + 2
    ensures CountCause(s.decisions, ByWait) <= 2
    ensures forall i, j :: i in ExecutedWaits(s.actions) && j in ExecutedWaits(s.actions) && i != j ==>
              s.actions[i].kind != s.actions[j].kind
  {
    ReachableCasesAreSound(s, cfg);
    DecisionLimits(s, cfg.guardrails);
  }

  // ---- Properties of a run as a whole ----

  /** What a run keeps of the rows, promises and decisions it starts with. */
  ghost predicate RunKeepsHistory(s: Case, t: Case) {
    && |s.actions| <= |t.actions| && |s.promises| <= |t.promises|
    && (forall i :: 0 <= i < |s.actions| ==> RowMoves(s.actions[i], t.actions[i]))
    && (forall p :: 0 <= p < |s.promises| ==>
          && t.promises[p].amount == s.promises[p].amount && t.promises[p].day == s.promises[p].day
          && (!s.promises[p].status.Pending? ==> t.promises[p] == s.promises[p]))
  }

  /** EXECUTED, CANCELLED and FAILED are absorbing, and a promise leaves PENDING at most once. */
  lemma {:induction false} HistoryIsNeverRewritten(s: Case, steps: seq<Step>, t: Case, cfg: Settings)
    requires Invariant(s, cfg) && IsRun(s, steps, t, cfg) && cfg.maxAttempts >= 1
    ensures RunKeepsHistory(s, t)
    decreases steps
  {
    if steps != [] {
      var u := Apply(s, steps[0], cfg);
      StepKeepsInvariant(s, steps[0], cfg);
      StepEvolvesRows(s, steps[0], cfg);
      StepEvolvesPromises(s, steps[0], cfg);
      HistoryIsNeverRewritten(u, steps[1..], t, cfg);
      HistoryComposes(s, u, t);
    }
  }

  lemma HistoryComposes(s: Case, u: Case, t: Case)
    requires RowsEvolve(s.actions, u.actions) && (exists at :: PromisesEvolve(s.promises, u.promises, at))
    requires RunKeepsHistory(u, t)
    ensures RunKeepsHistory(s, t)
  {
    forall i | 0 <= i < |s.actions| ensures RowMoves(s.actions[i], t.actions[i]) {
      assert RowMoves(s.actions[i], u.actions[i]) && RowMoves(u.actions[i], t.actions[i]);
    }
  }

  /**
    The latch over whole runs: once a case has been in human review, terminal, or has a pending
    promise, no later step of any run records a decision or schedules another outreach.
   */
  lemma {:induction false} LatchHoldsForever(s: Case, steps: seq<Step>, t: Case, cfg: Settings)
    requires Invariant(s, cfg) && IsRun(s, steps, t, cfg) && cfg.maxAttempts >= 1
    requires IsLatched(s) || HasPendingPromise(s.promises)
    ensures IsLatched(t) && NoNewOutreach(s, t)
    decreases steps
  {
    if HasPendingPromise(s.promises) {
      PendingPromiseLatches(s);
    }
    if steps != [] {
      var u := Apply(s, steps[0], cfg);
      StepKeepsLatch(s, steps[0], cfg);
      StepKeepsInvariant(s, steps[0], cfg);
      LatchHoldsForever(u, steps[1..], t, cfg);
      StepEvolvesRows(s, steps[0], cfg);
      HistoryIsNeverRewritten(u, steps[1..], t, cfg);
      LatchComposes(s, u, t);
    }
  }

  lemma LatchComposes(s: Case, u: Case, t: Case)
    requires NoNewOutreach(s, u) && NoNewOutreach(u, t)
    requires RowsEvolve(s.actions, u.actions) && RunKeepsHistory(u, t)
    ensures NoNewOutreach(s, t)
  {
    forall i | |s.actions| <= i < |t.actions| ensures t.actions[i].kind.FollowUpPtp? {
      if i < |u.actions| {
        assert RowMoves(u.actions[i], t.actions[i]);
      }
    }
    forall i | 0 <= i < |s.actions| && t.actions[i].status.Scheduled?
      ensures s.actions[i].status.Scheduled? || s.actions[i].kind.FollowUpPtp?
    {
      assert RowMoves(s.actions[i], u.actions[i]);
    }
  }
}
