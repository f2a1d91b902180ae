/**
  The case as the services update it: one object whose columns and row lists the transactions
  assign. A handler runs inside a transaction and does exactly what the protocol says; a transaction
  runs handlers and commits, from a case that satisfies every invariant of the runs to another one.
 */
module CaseTransactions {
  import opened Rows
  import opened GuardrailEngine
  import opened PolicyDispatch
  import opened PolicyEngine
  import opened MerchantTime
  import opened PromiseValidation
  import opened Runtime
  import opened Orchestrator
  import opened Protocol
  import opened CaseColumns
  import opened Runs
  import opened TransactionMeaning
  import opened Settlement
  import opened Sweep

  /** The audit row the dispatcher leaves beside a decision. */
  datatype PolicyNote =
    | NoNote
    | ShadowError
    | ShadowCompared(baseline: ActionType, suggested: ActionType)
    | AdaptiveDecided
    | AdaptiveFellBack

  class RevenueCase {
    const cfg: Settings
    var state: CaseState
    var amount: int
    var currency: string
    var category: Category
    var link: Option<string>
    var subscriptionLinked: bool
    var actions: seq<Action>
    var promises: seq<Promise>
    var failures: nat
    var decisions: seq<Decision>
    var effects: seq<nat>
    var clock: int
    /** What a query of the open session returns; pending writes are not in it. */
    var visible: Seen

    function View(): Case
      reads this
    {
      Case(state, amount, currency, category, link, subscriptionLinked,
           actions, promises, failures, decisions, effects, clock)
    }

    function Held(): Session
      reads this
    {
      SessionOn(View(), visible)
    }

    /** Between transactions nothing is pending, and the case is one that a run of the protocol reaches. */
    ghost predicate Valid()
      reads this
    {
      cfg.maxAttempts >= 1 && visible == Seen(actions, failures) && Reachable(View(), cfg)
    }

    /** So every invariant of the runs holds of it. */
    lemma ValidCasesAreSound()
      requires Valid()
      ensures Invariant(View(), cfg)
    {
      ReachableCasesAreSound(View(), cfg);
    }

    // ---- The session ----

    method Flush()
      modifies `visible
      ensures visible == Seen(actions, failures)
    {
      visible := Seen(actions, failures);
    }

    method Commit(at: int)
      modifies `visible, `clock
      ensures visible == Seen(actions, failures) && View() == old(View()).(clock := at)
    {
      Flush();
      clock := at;
    }

    // ---- Handlers: orchestrator.py ----

    /** `_cancel_scheduled_actions`. */
    method CancelScheduledActions() returns (cancelled: nat)
      modifies `actions
      ensures actions == CancelScheduled(old(actions))
      ensures cancelled == |set i | 0 <= i < |old(actions)| && old(actions)[i].status.Scheduled?|
    {
      ghost var pending: set<int> := {};
      cancelled := 0;
      for i := 0 to |actions|
        invariant |actions| == |old(actions)|
        invariant forall j :: 0 <= j < i ==> actions[j] == CancelledRow(old(actions)[j])
        invariant forall j :: i <= j < |actions| ==> actions[j] == old(actions)[j]
        invariant pending == set j | 0 <= j < i && old(actions)[j].status.Scheduled?
        invariant cancelled == |pending|
      {
        if actions[i].status.Scheduled? {
          actions := actions[i := actions[i].(status := Cancelled)];
          pending := pending + {i};
          cancelled := cancelled + 1;
        }
      }
      assert pending == set i | 0 <= i < |old(actions)| && old(actions)[i].status.Scheduled?;
    }

    method ResolvePendingPromises(to: PromiseStatus, at: int)
      requires !to.Pending?
      modifies `promises
      ensures promises == ResolvePending(old(promises), to, at)
    {
      for i := 0 to |promises|
        invariant |promises| == |old(promises)|
        invariant forall j :: 0 <= j < i ==> promises[j] == ResolvedRow(old(promises)[j], to, at)
        invariant forall j :: i <= j < |promises| ==> promises[j] == old(promises)[j]
      {
        if promises[i].status.Pending? {
          promises := promises[i := promises[i].(status := to, resolvedAt := Some(at))];
        }
      }
    }

    /** `_recover_case`. */
    method RecoverCase(at: int)
      modifies `actions, `promises, `state
      ensures View() == Recover(old(View()), at)
    {
      var cancelled := CancelScheduledActions();
      ResolvePendingPromises(Kept, at);
      state := Recovered;
    }

    /** `_handle_recovery` for the matched case. */
    method TakeRecovery(at: int)
      modifies `actions, `promises, `state
      ensures View() == HandleRecovery(old(View()), at)
    {
      if state.Recovered? || state.Disputed? {
        return;
      }
      RecoverCase(at);
    }

    /** `_dispute_case`: a dispute always wins. */
    method DisputeThisCase() returns (previous: CaseState)
      modifies `actions, `state
      ensures previous == old(state)
      ensures View() == DisputeCase(old(View()))
    {
      var cancelled := CancelScheduledActions();
      previous := state;
      state := Disputed;
    }

    /** `_diagnose`. */
    method Diagnose(newCategory: Category, mode: Mode, now: int, at: int)
      requires IsDiagnosable(state)
      modifies `category, `state, `actions, `decisions, `visible
      ensures View() == Decide(old(View()).(category := newCategory, state := Diagnosed),
                               ByFailure, old(visible), mode, cfg, now, at)
    {
      category := newCategory;
      state := Diagnosed;
      var decided, note := DecideForCase(ByFailure, mode, now, at);
    }

    /** The end of `_handle_failure` for a new case. */
    method BeginWith(newCategory: Category, alreadyCaptured: bool, mode: Mode, now: int, at: int)
      requires state.Detected?
      modifies this
      ensures View() == if alreadyCaptured then Recover(old(View()), at)
          else Decide(old(View()).(category := newCategory, state := Diagnosed), ByFailure, old(visible), mode, cfg,
                      now, at)
    {
      if alreadyCaptured {
        RecoverCase(at);
      } else {
        Diagnose(newCategory, mode, now, at);
      }
    }

    /** The new receivable a failure brings when it is matched by its subscription. */
    method AdoptRebill(rebill: Rebill)
      modifies `amount, `currency
      ensures View() == Rebilled(old(View()), Some(rebill))
    {
      if rebill.amount.Some? {
        amount := rebill.amount.value;
      }
      if rebill.currency.Some? && rebill.currency.value != "" {
        currency := rebill.currency.value;
      }
    }

    /** The last branch of `_handle_existing_failure`; the cancellations are not flushed when the policy looks. */
    method Rediagnose(newCategory: Category, mode: Mode, now: int, at: int)
      modifies `category, `state, `actions, `decisions, `visible
      ensures View() == Decide(old(View()).(actions := CancelScheduled(old(actions)), state := Diagnosed,
          category := newCategory),
                               ByFailure, old(visible), mode, cfg, now, at)
    {
      var cancelled := CancelScheduledActions();
      state := Detected;
      Diagnose(newCategory, mode, now, at);
    }

    /** `_handle_failure` and `_handle_existing_failure` for a case that is already there. */
    method TakeFailure(newCategory: Category, rebill: Option<Rebill>, mode: Mode, now: int, at: int)
      requires visible == Seen(actions, failures)
      modifies this
      ensures View() == HandleFailure(old(View()), newCategory, rebill, mode, cfg, now, at)
    {
      if rebill.Some? {
        if !IsOpenForRebill(state) {
          return;
        }
        AdoptRebill(rebill.value);
      }
      failures := failures + 1;
      if !IsDiagnosable(state) {
        return;
      }
      if HasPendingPromise(promises) {
        category := newCategory;
        return;
      }
      ghost var noted := View();
      assert noted == Rebilled(old(View()), rebill).(failures := old(failures) + 1);
      Rediagnose(newCategory, mode, now, at);
      assert noted.(actions := CancelScheduled(noted.actions), state := Diagnosed, category := newCategory)
          == Diagnosis(old(View()), newCategory, rebill);
    }

    /** `handle_customer_reply`. */
    method TakeReply(e: Extraction, now: int, at: int)
      modifies `actions, `promises, `state
      ensures View() == HandleReply(old(View()), e, cfg, now, at)
    {
      if !IsReplyable(state) {
        return;
      }
      if e.intent.DisputeIntent? || e.intent.PaymentClaim? {
        var previous := DisputeThisCase();
        return;
      }
      if e.intent.NotAPromise? {
        var cancelled := CancelScheduledActions();
        state := HumanReview;
        return;
      }
      var validation := ValidatePromise(e, amount, UtcToLocal(now, cfg.zoneOffset));
      if validation.Invalid? {
        var cancelled := CancelScheduledActions();
        state := HumanReview;
        return;
      }
      var cancelled := CancelScheduledActions();
      ResolvePendingPromises(Superseded, at);
      promises := promises + [Promise(validation.amount, validation.day, Pending, None)];
      var followUpAt := EndOfLocalDayUtc(validation.day, cfg.zoneOffset);
      actions := actions + [Action(FollowUpPtp, Scheduled, at, followUpAt, None, 0, cfg.maxAttempts,
                                   Some(|promises| - 1), None, 0)];
      state := AwaitingOutcome;
    }

    // ---- Handlers: policy_engine.py, ml_policy.py, policy_dispatcher.py ----

    /** `_record_decision`, which flushes what it writes. */
    method Record(chosen: ActionType, cause: Cause, now: int, at: int)
      modifies `state, `actions, `decisions, `visible
      ensures View() == RecordDecision(old(View()), chosen, cause, cfg, now, at)
    {
      decisions := decisions + [Decision(chosen, cause)];
      var scheduledFor := now;
      if chosen.Wait? {
        scheduledFor := now + cfg.waitDelay * SECOND;
      } else if chosen.WaitForNativeRetry? {
        scheduledFor := now + cfg.nativeRetryDelay * SECOND;
      }
      var terminal := chosen.Escalate? || chosen.Stop?;
      actions := actions + [Action(chosen, if terminal then Executed else Scheduled, at, scheduledFor,
                                   None, 0, cfg.maxAttempts, None, None, 0)];
      Flush();
      state := StateFor(chosen);
    }

    /** `decide`. */
    method DecideBaseline(cause: Cause, now: int, at: int) returns (decided: bool)
      modifies `state, `actions, `decisions, `visible
      ensures var choice := BaselineDecision(old(Held()), cfg, now);
              && decided == choice.Some?
              && View() == if decided then RecordDecision(old(View()), choice.value, cause, cfg, now, at)
                  else old(View())
    {
      if !state.Diagnosed? {
        return false;
      }
      state := DecisionReady;
      var chosen, alternatives := ChooseBaseline(visible, amount, category, cfg.guardrails, now);
      Record(chosen, cause, now, at);
      return true;
    }

    /**
      `shadow_recommend`: it works on the live case object, so it borrows the state and puts it back
      on every path, scoring errors included. It leaves the case and the session as they were.
     */
    method ShadowRecommendation(scorer: Scorer, now: int) returns (recommendation: Recommendation)
      modifies `state
      ensures Held() == old(Held()) && View() == old(View())
      ensures recommendation == Recommended(old(Held()), scorer, cfg, now)
    {
      var original := state;
      var restore := !original.Diagnosed?;
      if restore {
        state := Diagnosed;
      }
      if scorer.Crashing? {
        recommendation := Errored;
      } else {
        var choice := AdaptiveChoose(visible, Subject(amount, category, subscriptionLinked), cfg, scorer.model, now);
        recommendation := if choice.Some? then Suggested(choice.value) else Errored;
      }
      if restore {
        state := original;
      }
    }

    /** `_decide_shadow`: recommend, then let the baseline decide, then note how the two compare. */
    method DecideShadow(cause: Cause, importable: bool, scorer: Scorer, now: int, at: int)
      returns (decided: bool, note: PolicyNote)
      modifies `state, `actions, `decisions, `visible
      ensures var choice := ShadowDecision(old(Held()), importable, scorer, cfg, now);
              && decided == choice.Some?
              && View() == (if decided then RecordDecision(old(View()), choice.value, cause, cfg, now, at)
                  else old(View()))
              && (decided ==> note == if !importable then ShadowError
                  else match Recommended(old(Held()), scorer, cfg, now)
                    case Suggested(kind) => ShadowCompared(choice.value, kind)
                    case Errored => NoNote)
    {
      note := NoNote;
      var recommendation := Errored;
      if importable {
        recommendation := ShadowRecommendation(scorer, now);
      } else {
        note := ShadowError;
        Flush();
      }
      decided := DecideBaseline(cause, now, at);
      if decided && recommendation.Suggested? {
        note := ShadowCompared(decisions[|decisions| - 1].chosen, recommendation.kind);
      }
    }

    /** `_decide_adaptive` with `decide_ml`; the note says whether the model or the fallback decided. */
    method DecideAdaptive(cause: Cause, model: Model, now: int, at: int) returns (decided: bool, note: PolicyNote)
      modifies `state, `actions, `decisions, `visible
      ensures note == if !old(state).Diagnosed? || old(visible).failures > cfg.guardrails.maxTotalAttempts then NoNote
          else if AdaptiveChoice(old(visible), Subject(amount, category, subscriptionLinked), cfg, model, now).Some?
          then AdaptiveDecided else AdaptiveFellBack
      ensures var choice := AdaptiveDecision(old(Held()), model, cfg, now);
              && decided == choice.Some?
              && View() == if decided then RecordDecision(old(View()), choice.value, cause, cfg, now, at)
                  else old(View())
    {
      if !state.Diagnosed? {
        return false, NoNote;
      }
      state := DecisionReady;
      if visible.failures > cfg.guardrails.maxTotalAttempts {
        Record(Stop, cause, now, at);
        return true, NoNote;
      }
      var choice := AdaptiveChoose(visible, Subject(amount, category, subscriptionLinked), cfg, model, now);
      if choice.None? {
        if state.DecisionReady? {
          state := Diagnosed;
        }
        decided := DecideBaseline(cause, now, at);
        return decided, AdaptiveFellBack;
      }
      Record(choice.value, cause, now, at);
      return true, AdaptiveDecided;
    }

    /** `decide_for_case`. */
    method DecideForCase(cause: Cause, mode: Mode, now: int, at: int) returns (decided: bool, note: PolicyNote)
      modifies `state, `actions, `decisions, `visible
      ensures decided == old(state).Diagnosed?
      ensures View() == Decide(old(View()), cause, old(visible), mode, cfg, now, at)
    {
      match mode {
      case Baseline =>
        note := NoNote;
        decided := DecideBaseline(cause, now, at);
      case Shadow(importable, scorer) =>
        decided, note := DecideShadow(cause, importable, scorer, now, at);
      case Adaptive(model) =>
        decided, note := DecideAdaptive(cause, model, now, at);
      }
    }

    // ---- Handlers: temporal_runtime.py, ptp_followup.py, action_executor.py ----

    /** `_cancel_stale`. */
    method CancelStale(i: nat)
      requires i < |actions|
      modifies `actions
      ensures View() == SetStatus(old(View()), i, Cancelled)
    {
      actions := actions[i := actions[i].(status := Cancelled)];
    }

    /** `complete_followup`. */
    method CompleteFollowupAction(i: nat, at: int) returns (outcome: Outcome)
      requires i < |actions|
      modifies `state, `actions, `promises
      ensures View() == CompleteFollowup(old(View()), i, at)
      ensures outcome == if !IsTerminal(old(state)) && PromiseIsPending(old(View()), old(actions)[i])
          then PromiseBroken else AlreadyRecovered
    {
      var a := actions[i];
      var pending := PromiseIsPending(View(), a);
      if IsTerminal(state) || !pending {
        if pending && state.Recovered? {
          promises := promises[a.promise.value := promises[a.promise.value].(status := Kept, resolvedAt := Some(at))];
        }
        actions := actions[i := a.(status := Executed)];
        return AlreadyRecovered;
      }
      promises := promises[a.promise.value := promises[a.promise.value].(status := Broken, resolvedAt := Some(at))];
      actions := actions[i := a.(status := Executed)];
      state := HumanReview;
      return PromiseBroken;
    }

    /** One turn of the follow-up pass. */
    method RunDueFollowupAction(i: nat, now: int, at: int) returns (due: bool, broke: bool)
      requires i < |actions|
      modifies `state, `actions, `promises
      ensures View() == RunDueFollowup(old(View()), i, now, at)
      ensures |actions| == |old(actions)| && forall j :: 0 <= j < |actions| && j != i ==> actions[j] == old(actions)[j]
      ensures due == IsDueFollowup(old(actions)[i], now)
      ensures broke == BreaksAt(old(View()), i, now)
    {
      due := IsDueFollowup(actions[i], now);
      broke := false;
      if due {
        var outcome := CompleteFollowupAction(i, at);
        broke := outcome.PromiseBroken?;
      }
    }

    /** `apply_terminal_failure` and `apply_reconciliation_failure`. */
    method ApplyTerminalFailure(i: nat)
      requires i < |actions|
      modifies `state, `actions
      ensures View() == FailToReview(old(View()), i)
    {
      actions := actions[i := actions[i].(status := Failed)];
      state := HumanReview;
    }

    /** `apply_success`. */
    method ApplySuccessfulCall(i: nat, result: Option<string>)
      requires i < |actions|
      modifies `state, `actions, `link, `effects
      ensures View() == ApplySuccess(old(View()), i, result)
    {
      var a := actions[i];
      if a.kind.CreatePaymentLink? {
        link := result;
      }
      effects := effects + [i];
      actions := actions[i := a.(status := Executed, link := result)];
      state := AwaitingOutcome;
    }

    /** `_claim_action`. */
    method TakeClaim(i: nat, now: int) returns (claimed: bool)
      modifies `actions
      ensures View() == Claim(old(View()), i, now)
      ensures claimed <==> i < |old(actions)| && old(actions)[i].status.Scheduled? && actions[i].status.Executing?
    {
      if i >= |actions| || !actions[i].status.Scheduled? {
        return false;
      }
      if actions[i].scheduledFor > now {
        return false;
      }
      var a := actions[i];
      var eligible := !IsTerminal(state);
      if IsWait(a.kind) {
        eligible := eligible && state.Waiting? && !IsSuperseded(actions, i);
      } else if IsContact(a.kind) {
        eligible := eligible && state.ActionScheduled? && !IsSuperseded(actions, i);
      } else if a.kind.FollowUpPtp? {
        eligible := eligible && state.AwaitingOutcome? && PromiseIsPending(View(), a) && !IsSuperseded(actions, i);
      } else {
        eligible := false;
      }
      if !eligible {
        CancelStale(i);
        return false;
      }
      actions := actions[i := a.(status := Executing, claimedAt := Some(now), attempts := a.attempts + 1)];
      return true;
    }

    /** `_complete_wait`. */
    method FinishWait(i: nat, mode: Mode, now: int, at: int) returns (outcome: Outcome)
      modifies `state, `actions, `decisions, `visible
      ensures View() == CompleteWait(old(View()), i, mode, cfg, now, at)
      ensures outcome == if IsExecuting(old(View()), i) && old(state).Waiting? && !IsSuperseded(old(actions), i)
          then Done else Stale
    {
      if i >= |actions| || !actions[i].status.Executing? {
        return Stale;
      }
      if !state.Waiting? || IsSuperseded(actions, i) {
        CancelStale(i);
        return Stale;
      }
      actions := actions[i := actions[i].(status := Executed)];
      state := Diagnosed;
      assert View() == WaitedCase(old(View()), i);
      Flush();
      var decided, note := DecideForCase(ByWait, mode, now, at);
      return Done;
    }

    /** `_complete_ptp`. */
    method FinishPtp(i: nat, at: int) returns (outcome: Outcome)
      modifies `state, `actions, `promises
      ensures View() == CompletePtp(old(View()), i, at)
      ensures if i < |old(actions)| then IsPtpOutcome(old(View()), i, outcome) else outcome.Stale?
    {
      if i >= |actions| || !actions[i].status.Executing? {
        return Stale;
      }
      if !state.AwaitingOutcome? || IsSuperseded(actions, i) {
        CancelStale(i);
        return Stale;
      }
      outcome := CompleteFollowupAction(i, at);
    }

    /** `_complete_external` and `apply_success`. */
    method FinishExternal(i: nat, result: Option<string>) returns (outcome: Outcome)
      modifies `state, `actions, `link, `effects
      ensures View() == CompleteExternal(old(View()), i, result)
      ensures outcome == if effects != old(effects) then Done else Stale
    {
      if i >= |actions| || !actions[i].status.Executing? {
        return Stale;
      }
      if !state.ActionScheduled? || IsSuperseded(actions, i) {
        CancelStale(i);
        return Stale;
      }
      ApplySuccessfulCall(i, result);
      return Done;
    }

    /** `_record_external_failure`, and `_schedule_ambiguous_retry`, which makes the same state change. */
    method RetryOrGiveUp(i: nat, now: int) returns (outcome: Outcome)
      modifies `state, `actions
      ensures View() == RetryOrFail(old(View()), i, cfg, now)
      ensures if i < |old(actions)| then IsRetryOutcome(old(View()), View(), i, outcome) else outcome.Stale?
    {
      if i >= |actions| || !actions[i].status.Executing? {
        return Stale;
      }
      if !state.ActionScheduled? || IsSuperseded(actions, i) {
        CancelStale(i);
        return Stale;
      }
      var a := actions[i];
      if a.attempts < a.maxAttempts {
        var delay := RetryDelay(cfg, a.attempts);
        actions := actions[i := a.(status := Scheduled, scheduledFor := now + delay * SECOND, claimedAt := None,
                                   backoff := a.backoff + delay)];
        return RetryScheduled;
      }
      ApplyTerminalFailure(i);
      return Failure;
    }

    /** The mismatch branch of `_handle_ambiguous_payment_link` and `_reconcile_stale_payment_link`. */
    method FailMismatch(i: nat) returns (failed: bool)
      modifies `state, `actions
      ensures View() == ReconciliationFailure(old(View()), i)
      ensures failed == IsExecuting(old(View()), i)
    {
      if i >= |actions| || !actions[i].status.Executing? {
        return false;
      }
      ApplyTerminalFailure(i);
      return true;
    }

    /** The generic lease branch of `reconcile_actions`. */
    method RecoverClaim(i: nat, now: int) returns (reset: nat, failed: nat)
      modifies `state, `actions
      ensures View() == RecoverLease(old(View()), i, cfg, now)
      ensures IsLeaseCount(old(View()), View(), i, reset, failed)
    {
      if i >= |actions| || !LeaseExpired(actions[i], cfg, now) {
        return 0, 0;
      }
      if !IsEligible(View(), i) {
        CancelStale(i);
        return 0, 0;
      }
      var a := actions[i];
      if a.attempts >= a.maxAttempts {
        ApplyTerminalFailure(i);
        return 0, 1;
      }
      actions := actions[i := a.(status := Scheduled, scheduledFor := now, claimedAt := None)];
      return 1, 0;
    }

    method RunFollowupPass(now: int, at: int) returns (processed: nat, recovered: nat, broken: nat)
      modifies `state, `actions, `promises
      ensures View() == RunDueFollowups(old(View()), |old(actions)|, now, at)
      ensures processed == recovered + broken
      ensures processed == |DueFollowups(old(actions), |old(actions)|, now)|
      ensures broken == BrokenByPass(old(View()), |old(actions)|, now, at)
    {
      processed, recovered, broken := 0, 0, 0;
      for i := 0 to |actions|
        invariant |actions| == |old(actions)| && processed == recovered + broken
        invariant Passed(old(View()), View(), i, now, at, processed, broken)
      {
        PassNext(old(View()), View(), i, now, at, processed, broken);
        var due, broke := RunDueFollowupAction(i, now, at);
        processed := processed + if due then 1 else 0;
        broken := broken + if broke then 1 else 0;
        recovered := recovered + if due && !broke then 1 else 0;
      }
    }

    // ---- Transactions: inbound events ----

    /** `_handle_failure` without an existing case. */
    constructor Open(
      cfg: Settings, category: Category, amount: Option<int>, currency: string, subscriptionLinked: bool,
      alreadyCaptured: bool, mode: Mode, now: int, at: int)
      requires cfg.maxAttempts >= 1 && now <= at
      ensures this.cfg == cfg && Valid()
      ensures View() == OpenCase(category, amount, currency, subscriptionLinked, alreadyCaptured, mode, cfg, now, at)
      ensures OpeningMeans(View(), category, amount, currency, subscriptionLinked, alreadyCaptured, mode, now, cfg)
    {
      this.cfg := cfg;
      this.state := Detected;
      this.amount := if amount.Some? then amount.value else 0;
      this.currency := currency;
      this.category := UnknownFailure;
      this.link := None;
      this.subscriptionLinked := subscriptionLinked;
      this.actions, this.promises := [], [];
      this.failures := 1;
      this.decisions, this.effects := [], [];
      this.clock := at;
      this.visible := Seen([], 0);
      new;
      ghost var detected := View();
      BeginWith(category, alreadyCaptured, mode, now, at);
      assert View().clock == at;
      assert detected == DetectedCase(amount, currency, subscriptionLinked, at);
      Commit(at);
      OpeningEnds(View(), category, amount, currency, subscriptionLinked, alreadyCaptured, mode, cfg, now, at);
    }

    /** A capture: `_handle_recovery` and the commit of its webhook. */
    method OnPaymentCaptured(at: int)
      requires Valid() && clock < at
      modifies this
      ensures Valid() && Transacts(old(View()), Step(PaymentCaptured, at), View(), cfg)
      ensures CaptureMeans(old(View()), View())
    {
      ghost var s := View();
      TakeRecovery(at);
      Commit(at);
      ReachableCasesAreCore(s, cfg);
      CaptureEnds(s, at, cfg);
      TransactionEnds(s, Step(PaymentCaptured, at), cfg);
    }

    /** A paid link: `_handle_payment_link_paid` and the commit of its webhook. */
    method OnPaymentLinkPaid(paid: string, at: int)
      requires Valid() && clock < at
      modifies this
      ensures Valid() && Transacts(old(View()), Step(LinkPaid(paid), at), View(), cfg)
      ensures LinkPaidMeans(old(View()), View(), paid)
    {
      ghost var s := View();
      if link == Some(paid) {
        TakeRecovery(at);
      }
      Commit(at);
      ReachableLinkIsLatest(s, cfg);
      LinkPaidEnds(s, paid, at, cfg);
      TransactionEnds(s, Step(LinkPaid(paid), at), cfg);
    }

    /** A dispute: `_handle_dispute` and the commit of its webhook. */
    method OnDispute(at: int) returns (previous: CaseState)
      requires Valid() && clock < at
      modifies this
      ensures Valid() && Transacts(old(View()), Step(DisputeOpened, at), View(), cfg)
      ensures previous == old(state) && DisputeMeans(old(View()), View())
    {
      ghost var s := View();
      previous := DisputeThisCase();
      Commit(at);
      TransactionEnds(s, Step(DisputeOpened, at), cfg);
    }

    /** A failure of a known payment, or of the subscription of an open case. */
    method OnFailure(newCategory: Category, rebill: Option<Rebill>, mode: Mode, now: int, at: int)
      requires Valid() && clock < at && now <= at
      modifies this
      ensures Valid()
      ensures Transacts(old(View()), Step(FailureReported(newCategory, rebill, mode, now), at), View(), cfg)
      ensures FailureMeans(old(View()), View(), newCategory, rebill, mode, now, cfg)
      ensures AmountWithinCap(View(), cfg.guardrails)
    {
      ghost var s, step := View(), Step(FailureReported(newCategory, rebill, mode, now), at);
      TakeFailure(newCategory, rebill, mode, now, at);
      Commit(at);
      ReachableCasesAreCore(s, cfg);
      FailureEnds(s, newCategory, rebill, mode, now, at, cfg);
      TransactionEnds(s, step, cfg);
      ReachableAmountIsWithinCap(View(), cfg);
    }

    /** A customer reply. */
    method OnCustomerReply(e: Extraction, now: int, at: int)
      requires Valid() && clock < at && now <= at
      modifies this
      ensures Valid() && Transacts(old(View()), Step(CustomerReplied(e, now), at), View(), cfg)
      ensures ReplyMeans(old(View()), View(), e, now, cfg)
    {
      ghost var s := View();
      TakeReply(e, now, at);
      Commit(at);
      ReachableCasesAreCore(s, cfg);
      ReplyEnds(s, e, now, at, cfg);
      TransactionEnds(s, Step(CustomerReplied(e, now), at), cfg);
    }

    // ---- Transactions: the worker ----

    /** `_claim_action`. */
    method ClaimAction(i: nat, now: int, at: int) returns (claimed: bool)
      requires Valid() && clock < at && now <= at
      modifies this
      ensures Valid() && Transacts(old(View()), Step(ClaimDue(i, now), at), View(), cfg)
      ensures ClaimMeans(old(View()), View(), i, now, claimed)
      ensures claimed ==> old(actions)[i].attempts < cfg.maxAttempts
    {
      ghost var s := View();
      claimed := TakeClaim(i, now);
      Commit(at);
      ClaimEnds(s, i, now, at, claimed, cfg);
    }

    /** `_complete_wait`. */
    method CompleteWaitAction(i: nat, mode: Mode, now: int, at: int) returns (outcome: Outcome)
      requires Valid() && clock < at && now <= at
      requires i < |actions| ==> IsWait(actions[i].kind)
      modifies this
      ensures Valid()
      ensures i >= |old(actions)| ==> outcome.Stale? && View() == old(View())
      ensures i < |old(actions)| ==> Transacts(old(View()), Step(WaitDone(i, mode, now), at), View(), cfg)
      ensures i < |old(actions)| ==> WaitMeans(old(View()), View(), i, mode, now, outcome, cfg)
    {
      if i >= |actions| {
        return Stale;
      }
      ghost var s := View();
      outcome := FinishWait(i, mode, now, at);
      Commit(at);
      WaitEnds(s, i, mode, now, at, outcome, cfg);
    }

    /** `_complete_ptp`. */
    method CompletePtpAction(i: nat, at: int) returns (outcome: Outcome)
      requires Valid() && clock < at
      requires i < |actions| ==> actions[i].kind.FollowUpPtp?
      modifies this
      ensures Valid()
      ensures i >= |old(actions)| ==> outcome.Stale? && View() == old(View())
      ensures i < |old(actions)| ==> Transacts(old(View()), Step(PtpDone(i), at), View(), cfg)
      ensures i < |old(actions)| ==> PtpMeans(old(View()), View(), i, outcome, cfg)
    {
      if i >= |actions| {
        return Stale;
      }
      ghost var s := View();
      outcome := FinishPtp(i, at);
      Commit(at);
      PtpEnds(s, i, at, outcome, cfg);
    }

    /** `process_due_followups` on this case: completes every due follow-up and counts the outcomes. */
    method ProcessDueFollowups(now: int, at: int) returns (processed: nat, recovered: nat, broken: nat)
      requires Valid() && clock < at && now <= at
      modifies this
      ensures Valid()
      ensures Transacts(old(View()), Step(DueFollowupRun(LastAction(old(View())), now), at), View(), cfg)
      ensures processed == recovered + broken && PassMeans(old(View()), View(), now, processed, broken)
    {
      ghost var s := View();
      processed, recovered, broken := RunFollowupPass(now, at);
      Commit(at);
      ReachableCasesAreCore(s, cfg);
      PassIsOneStep(s, now, at, cfg);
      PassHolds(s, now, at);
      TransactionEnds(s, Step(DueFollowupRun(LastAction(s), now), at), cfg);
    }

    /** `_complete_external`. */
    method CompleteExternalAction(i: nat, result: Option<string>, at: int) returns (outcome: Outcome)
      requires Valid() && clock < at
      requires i < |actions| ==> IsContact(actions[i].kind)
      modifies this
      ensures Valid()
      ensures i >= |old(actions)| ==> outcome.Stale? && View() == old(View())
      ensures i < |old(actions)| ==> Transacts(old(View()), Step(ExternalDone(i, result), at), View(), cfg)
      ensures i < |old(actions)| ==> ExternalMeans(old(View()), View(), i, result, outcome)
    {
      if i >= |actions| {
        return Stale;
      }
      ghost var s := View();
      outcome := FinishExternal(i, result);
      Commit(at);
      ExternalEnds(s, i, result, at, outcome, cfg);
    }

    /** `_record_external_failure`, and `_schedule_ambiguous_retry`, which makes the same state change. */
    method RecordExternalFailure(i: nat, now: int, at: int) returns (outcome: Outcome)
      requires Valid() && clock < at && now <= at
      requires i < |actions| ==> IsContact(actions[i].kind)
      modifies this
      ensures Valid()
      ensures i >= |old(actions)| ==> outcome.Stale? && View() == old(View())
      ensures i < |old(actions)| ==> Transacts(old(View()), Step(ExternalRetry(i, now), at), View(), cfg)
      ensures i < |old(actions)| ==> RetryMeans(old(View()), View(), i, now, outcome, cfg)
    {
      if i >= |actions| {
        return Stale;
      }
      ghost var s := View();
      outcome := RetryOrGiveUp(i, now);
      Commit(at);
      RetryEnds(s, i, now, at, outcome, cfg);
    }

    /** The mismatch branch of `_handle_ambiguous_payment_link` and `_reconcile_stale_payment_link`. */
    method RecordMismatch(i: nat, at: int) returns (failed: bool)
      requires Valid() && clock < at
      requires i < |actions| ==> actions[i].kind.CreatePaymentLink?
      modifies this
      ensures Valid()
      ensures i >= |old(actions)| ==> !failed && View() == old(View())
      ensures i < |old(actions)| ==> Transacts(old(View()), Step(LinkMismatch(i), at), View(), cfg)
      ensures i < |old(actions)| ==> MismatchMeans(old(View()), View(), i, failed)
    {
      if i >= |actions| {
        return false;
      }
      ghost var s := View();
      failed := FailMismatch(i);
      Commit(at);
      TransactionEnds(s, Step(LinkMismatch(i), at), cfg);
    }

    /** The cancel after an unlocked look; the caller has seen a terminal case or a newer action. */
    method CancelAfterLook(i: nat, at: int)
      requires Valid() && clock < at
      requires i < |actions| && actions[i].kind.CreatePaymentLink? && (i < |actions| - 1 || IsLatched(View()))
      modifies this
      ensures Valid() && Transacts(old(View()), Step(StaleCancel(i), at), View(), cfg)
      ensures if old(actions)[i].status.Executing? then OnlyCancels(old(View()), View(), i)
              else Unchanged(old(View()), View())
    {
      ghost var s := View();
      if actions[i].status.Executing? {
        CancelStale(i);
      }
      Commit(at);
      TransactionEnds(s, Step(StaleCancel(i), at), cfg);
    }

    /** The generic lease branch of `reconcile_actions`. */
    method RecoverExpiredLease(i: nat, now: int, at: int) returns (reset: nat, failed: nat)
      requires Valid() && clock < at && now <= at
      modifies this
      ensures Valid() && Transacts(old(View()), Step(LeaseSwept(i, now), at), View(), cfg)
      ensures LeaseMeans(old(View()), View(), i, now, reset, failed, cfg)
    {
      ghost var s := View();
      reset, failed := RecoverClaim(i, now);
      Commit(at);
      LeaseEnds(s, View(), i, now, at, reset, failed, cfg);
    }

    // ---- The worker entry point ----

    /** `_handle_ambiguous_payment_link`, with what its lookup ends in. */
    method SettleUnclearCall(i: nat, answer: LookupAnswer, now: int, at: int) returns (outcome: Outcome)
      requires Valid() && clock < at && now <= at
      requires i < |actions| && IsContact(actions[i].kind)
      modifies this
      ensures Valid() && clock == at && Respects(old(View()), View())
      ensures UnclearMeans(old(View()), View(), i, answer, now, outcome, cfg)
    {
      if !actions[i].kind.CreatePaymentLink? {
        outcome := RecordExternalFailure(i, now, at);
      } else if IsTerminal(state) {
        CancelAfterLook(i, at);
        outcome := Stale;
      } else if answer.Refused? {
        var failed := RecordMismatch(i, at);
        outcome := if failed then Failure else Stale;
      } else if answer.OneLink? {
        outcome := CompleteExternalAction(i, Some(answer.linkId), at);
      } else {
        outcome := RecordExternalFailure(i, now, at);
      }
    }

    /** What `process_action` does after its claim. */
    method SettleClaim(i: nat, mode: Mode, call: CallResult, now: int, at: int) returns (outcome: Outcome)
      requires Valid() && clock < at && now <= at
      requires i < |actions| && (IsWait(actions[i].kind) || IsContact(actions[i].kind) || actions[i].kind.FollowUpPtp?)
      modifies this
      ensures Valid() && clock == at && Respects(old(View()), View())
      ensures SettleMeans(old(View()), View(), i, mode, call, now, outcome, cfg)
    {
      if IsWait(actions[i].kind) {
        outcome := CompleteWaitAction(i, mode, now, at);
      } else if actions[i].kind.FollowUpPtp? {
        outcome := CompletePtpAction(i, at);
      } else if call.Succeeded? {
        outcome := CompleteExternalAction(i, call.result, at);
      } else if call.FailedCall? {
        outcome := RecordExternalFailure(i, now, at);
      } else {
        outcome := SettleUnclearCall(i, call.answer, now, at);
      }
    }

    /**
      `process_action` without interruption: a worker that is not interrupted settles the claim it took.
     */
    method ProcessAction(i: nat, mode: Mode, call: CallResult, now: int, claimAt: int, doneAt: int)
      returns (outcome: Outcome)
      requires Valid() && clock < claimAt < doneAt && now <= claimAt
      modifies this
      ensures Valid() && ProcessMeans(old(View()), View(), i, mode, call, now, claimAt, outcome, cfg)
    {
      var claimed := ClaimAction(i, now, claimAt);
      if claimed {
        ghost var held := View();
        outcome := SettleClaim(i, mode, call, now, doneAt);
        StandingClaimEnds(held, View(), i, mode, call, now, outcome, cfg);
      } else {
        outcome := Stale;
      }
    }
  }
}
