/** What a worker leaves of the action it claimed, by how its external call ended. */
module Settlement {
  import opened Rows
  import opened GuardrailEngine
  import opened PolicyDispatch
  import opened Runtime
  import opened PromiseLedger
  import opened Timing
  import opened TransactionMeaning
  import opened Sweep

  /** How the external call of a worker ended. */
  datatype CallResult = Succeeded(result: Option<string>) | FailedCall | Unclear(answer: LookupAnswer)

  /** An unclear call on whatever the worker finds; only a link is looked up at the provider. */
  predicate UnclearMeans(s: Case, t: Case, i: nat, answer: LookupAnswer, now: int, outcome: Outcome, cfg: Settings)
    requires HasAction(s, i)
  {
    if !s.actions[i].kind.CreatePaymentLink? then RetryMeans(s, t, i, now, outcome, cfg)
    else if IsTerminal(s.state) then outcome.Stale? && if IsExecuting(s, i) then OnlyCancels(s, t, i)
        else Unchanged(s, t)
    else match answer
      case Refused =>
        if IsExecuting(s, i) then outcome.Failure? && FailsToReview(s, t, i) else outcome.Stale? && Unchanged(s, t)
      case OneLink(id) => ExternalMeans(s, t, i, Some(id), outcome)
      case NoLink => RetryMeans(s, t, i, now, outcome, cfg)
      case NoAnswer => RetryMeans(s, t, i, now, outcome, cfg)
  }

  /** The end of the work on whatever the worker finds. */
  predicate SettleMeans(
    s: Case, t: Case, i: nat, mode: Mode, call: CallResult, now: int, outcome: Outcome, cfg: Settings)
    requires HasAction(s, i)
  {
    if IsWait(s.actions[i].kind) then WaitMeans(s, t, i, mode, now, outcome, cfg)
    else if s.actions[i].kind.FollowUpPtp? then PtpMeans(s, t, i, outcome, cfg)
    else match call
      case Succeeded(result) => ExternalMeans(s, t, i, result, outcome)
      case FailedCall => RetryMeans(s, t, i, now, outcome, cfg)
      case Unclear(answer) => UnclearMeans(s, t, i, answer, now, outcome, cfg)
  }

  /** The result an external action can show: its own, or the link the lookup found. */
  function ShownResult(kind: ActionType, call: CallResult): Option<Option<string>> {
    match call
    case Succeeded(result) => Some(result)
    case FailedCall => None
    case Unclear(answer) => if kind.CreatePaymentLink? && answer.OneLink? then Some(Some(answer.linkId)) else None
  }

  /**
    The end of the work while the claim stands. A wait brings its one decision, a follow-up breaks
    its promise, whose day is over. A contact that went out is EXECUTED with its result; a link the
    provider refuses goes to review; everything else counts as a failed call.
   */
  predicate HeldClaimEnds(
    s: Case, t: Case, i: nat, mode: Mode, call: CallResult, now: int, outcome: Outcome, cfg: Settings)
    requires HasAction(s, i) && Awaits(s, s.actions[i])
  {
    var a := s.actions[i];
    if IsWait(a.kind) then
      outcome.Done? && !WaitCompleted(s.actions, a.kind) && WaitBringsDecision(s, t, i, mode, now, cfg)
    else if a.kind.FollowUpPtp? then
      outcome.PromiseBroken? && BreaksPromise(s, t, i) && Due(s.promises[a.promise.value], cfg) <= t.clock
    else if ShownResult(a.kind, call).Some? then
      outcome.Done? && SucceedsWith(s, t, i, ShownResult(a.kind, call).value) && i !in s.effects
    else if a.kind.CreatePaymentLink? && call.Unclear? && call.answer.Refused? then
      outcome.Failure? && FailsToReview(s, t, i)
    else RetriesOrFails(s, t, i, now, outcome, cfg)
  }

  /** A claim that stands until the worker settles it ends as its call did. */
  lemma StandingClaimEnds(
    s: Case, t: Case, i: nat, mode: Mode, call: CallResult, now: int, outcome: Outcome, cfg: Settings)
    requires Stands(s, i) && SettleMeans(s, t, i, mode, call, now, outcome, cfg)
    ensures HeldClaimEnds(s, t, i, mode, call, now, outcome, cfg)
  {
  }

  /**
    One uninterrupted `process_action`. A duplicate or early delivery changes nothing, a due action
    the case no longer awaits is cancelled, and any other due action is the newest one and ends as
    its call did, with one attempt more.
   */
  predicate ProcessMeans(
    s: Case, t: Case, i: nat, mode: Mode, call: CallResult, now: int, claimAt: int, outcome: Outcome, cfg: Settings)
  {
    if !HasAction(s, i) || !s.actions[i].status.Scheduled? || s.actions[i].scheduledFor > now then
      outcome.Stale? && t == s.(clock := claimAt)
    else if !Awaits(s, s.actions[i]) then outcome.Stale? && OnlyCancels(s, t, i) && t.clock == claimAt
    else
      && i == |s.actions| - 1 && s.actions[i].attempts < cfg.maxAttempts
      && HeldClaimEnds(Started(s, i, now, claimAt), t, i, mode, call, now, outcome, cfg)
  }
}
