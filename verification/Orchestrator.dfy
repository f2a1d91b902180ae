/** orchestrator.py: what an inbound event or customer reply does to the case it locks. */
module Orchestrator {
  import opened Rows
  import opened GuardrailEngine
  import opened PolicyDispatch
  import opened MerchantTime
  import opened PromiseValidation
  import opened Runtime

  predicate IsDiagnosable(state: CaseState) {
    || state.Detected? || state.Diagnosed? || state.DecisionReady?
    || state.Waiting? || state.ActionScheduled? || state.AwaitingOutcome?
  }

  predicate IsReplyable(state: CaseState) {
    || state.DecisionReady? || state.Waiting? || state.ActionScheduled?
    || state.AwaitingOutcome? || state.HumanReview?
  }

  predicate HasPendingPromise(promises: seq<Promise>) {
    exists p :: 0 <= p < |promises| && promises[p].status.Pending?
  }

  function CancelledRow(a: Action): Action {
    if a.status.Scheduled? then a.(status := Cancelled) else a
  }

  /** `_cancel_scheduled_actions`. */
  function CancelScheduled(actions: seq<Action>): (r: seq<Action>)
    ensures |r| == |actions|
    ensures forall i :: 0 <= i < |r| ==> r[i] == CancelledRow(actions[i])
  {
    seq(|actions|, i requires 0 <= i < |actions| => CancelledRow(actions[i]))
  }

  function ResolvedRow(p: Promise, to: PromiseStatus, at: int): Promise {
    if p.status.Pending? then p.(status := to, resolvedAt := Some(at)) else p
  }

  function ResolvePending(promises: seq<Promise>, to: PromiseStatus, at: int): (r: seq<Promise>)
    ensures |r| == |promises|
    ensures forall i :: 0 <= i < |r| ==> r[i] == ResolvedRow(promises[i], to, at)
  {
    seq(|promises|, i requires 0 <= i < |promises| => ResolvedRow(promises[i], to, at))
  }

  /** A failure that reaches the case through its subscription brings its own amount and currency. */
  datatype Rebill = Rebill(amount: Option<int>, currency: Option<string>)

  /** The queries that find a case by subscription skip these states. */
  predicate IsOpenForRebill(state: CaseState) { !IsTerminal(state) && !state.HumanReview? }

  function Rebilled(s: Case, rebill: Option<Rebill>): Case {
    match rebill
    case None => s
    case Some(Rebill(amount, currency)) =>
      s.(amount := if amount.Some? then amount.value else s.amount,
         currency := if currency.Some? && currency.value != "" then currency.value else s.currency)
  }

  /** The case of an existing failure just before the policy decides. */
  function Diagnosis(s: Case, category: Category, rebill: Option<Rebill>): Case {
    Rebilled(s, rebill).(
      failures := s.failures + 1, actions := CancelScheduled(s.actions), state := Diagnosed, category := category)
  }

  /** `_handle_existing_failure`; its own audit row and cancellations are not flushed when the policy looks. */
  function HandleFailure(
    s: Case, category: Category, rebill: Option<Rebill>, mode: Mode, cfg: Settings, now: int, at: int): Case
  {
    if rebill.Some? && !IsOpenForRebill(s.state) then s
    else
      var noted := Rebilled(s, rebill).(failures := s.failures + 1);
      if !IsDiagnosable(s.state) then noted
      else if HasPendingPromise(s.promises) then noted.(category := category)
      else
        Decide(Diagnosis(s, category, rebill), ByFailure, Seen(s.actions, s.failures), mode, cfg, now, at)
  }

  /** A new case before anything is known of it but the failure. */
  function DetectedCase(amount: Option<int>, currency: string, subscriptionLinked: bool, at: int): Case {
    Case(Detected, if amount.Some? then amount.value else 0, currency, UnknownFailure, None, subscriptionLinked,
         [], [], 1, [], [], at)
  }

  /** `_handle_failure` when no case exists yet. */
  function OpenCase(
    category: Category, amount: Option<int>, currency: string, subscriptionLinked: bool,
    alreadyCaptured: bool, mode: Mode, cfg: Settings, now: int, at: int): Case
  {
    var detected := DetectedCase(amount, currency, subscriptionLinked, at);
    if alreadyCaptured then Recover(detected, at)
    else Decide(detected.(state := Diagnosed, category := category), ByFailure, Seen([], 0), mode, cfg, now, at)
  }

  /** `_recover_case`. */
  function Recover(s: Case, at: int): Case {
    s.(actions := CancelScheduled(s.actions),
       promises := ResolvePending(s.promises, Kept, at),
       state := Recovered)
  }

  /** `_handle_recovery` once the case is found. */
  function HandleRecovery(s: Case, at: int): Case {
    if s.state.Recovered? || s.state.Disputed? then s else Recover(s, at)
  }

  /** `_handle_payment_link_paid`. */
  function HandleLinkPaid(s: Case, link: string, at: int): Case {
    if s.link == Some(link) then HandleRecovery(s, at) else s
  }

  /** `_dispute_case`. */
  function DisputeCase(s: Case): Case {
    s.(actions := CancelScheduled(s.actions), state := Disputed)
  }

  function ToReview(s: Case): Case {
    s.(actions := CancelScheduled(s.actions), state := HumanReview)
  }

  function FollowUpAction(promise: nat, day: int, cfg: Settings, at: int): Action {
    Action(FollowUpPtp, Scheduled, at, EndOfLocalDayUtc(day, cfg.zoneOffset), None, 0, cfg.maxAttempts,
           Some(promise), None, 0)
  }

  /** `handle_customer_reply`. */
  function HandleReply(s: Case, e: Extraction, cfg: Settings, now: int, at: int): Case {
    if !IsReplyable(s.state) then s
    else if e.intent.DisputeIntent? || e.intent.PaymentClaim? then DisputeCase(s)
    else if e.intent.NotAPromise? then ToReview(s)
    else match ValidatePromise(e, s.amount, UtcToLocal(now, cfg.zoneOffset))
      case Invalid(_) => ToReview(s)
      case Valid(amount, day) =>
        s.(actions := CancelScheduled(s.actions) + [FollowUpAction(|s.promises|, day, cfg, at)],
           promises := ResolvePending(s.promises, Superseded, at) + [Promise(amount, day, Pending, None)],
           state := AwaitingOutcome)
  }
}
