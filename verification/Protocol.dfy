/**
  The protocol on one case: every transaction that can commit on it, in any order. A run is any
  sequence of enabled steps, so it covers overlapping workers, duplicate and late deliveries,
  crashes (a worker that never commits) and sweeps.
 */
module Protocol {
  import opened Rows
  import opened PolicyDispatch
  import opened PromiseValidation
  import opened Runtime
  import opened Orchestrator

  datatype Event =
    // inbound
    | FailureReported(category: Category, rebill: Option<Rebill>, mode: Mode, now: int)
    | PaymentCaptured
    | LinkPaid(paidLink: string)
    | DisputeOpened
    | CustomerReplied(extraction: Extraction, now: int)
    // workers and reconciler
    | ClaimDue(i: nat, now: int)
    | WaitDone(i: nat, mode: Mode, now: int)
    | PtpDone(i: nat)
    | DueFollowupRun(i: nat, now: int)
    | ExternalDone(i: nat, result: Option<string>)
    | ExternalRetry(i: nat, now: int)
    | LinkMismatch(i: nat)
    | StaleCancel(i: nat)
    | LeaseSwept(i: nat, now: int)

  predicate IsInbound(e: Event) {
    e.FailureReported? || e.PaymentCaptured? || e.LinkPaid? || e.DisputeOpened? || e.CustomerReplied?
  }

  /** A step commits at `at`. */
  datatype Step = Step(event: Event, at: int)

  /** The states in which automation is over or waits for a promise. */
  predicate IsLatched(s: Case) {
    s.state.HumanReview? || IsTerminal(s.state) || (s.state.AwaitingOutcome? && HasPendingPromise(s.promises))
  }

  /** A worker completes the kind of action its snapshot showed. */
  predicate IsRouted(s: Case, e: Event) {
    match e
    case WaitDone(i, _, _) => HasAction(s, i) && IsWait(s.actions[i].kind)
    case PtpDone(i) => HasAction(s, i) && s.actions[i].kind.FollowUpPtp?
    case ExternalDone(i, _) => HasAction(s, i) && IsContact(s.actions[i].kind)
    case ExternalRetry(i, _) => HasAction(s, i) && IsContact(s.actions[i].kind)
    case LinkMismatch(i) => HasAction(s, i) && s.actions[i].kind.CreatePaymentLink?
    case StaleCancel(i) =>
      HasAction(s, i) && s.actions[i].kind.CreatePaymentLink? && (i < |s.actions| - 1 || IsLatched(s))
    case _ => true
  }

  /** Commits on one case have distinct, increasing times; `now` was read before the commit. */
  predicate IsEnabled(s: Case, step: Step) {
    && step.at > s.clock
    && IsRouted(s, step.event)
    && match step.event
       case FailureReported(_, _, _, now) => now <= step.at
       case CustomerReplied(_, now) => now <= step.at
       case ClaimDue(_, now) => now <= step.at
       case WaitDone(_, _, now) => now <= step.at
       case DueFollowupRun(_, now) => now <= step.at
       case ExternalRetry(_, now) => now <= step.at
       case LeaseSwept(_, now) => now <= step.at
       case _ => true
  }

  function Effect(s: Case, step: Step, cfg: Settings): Case
    requires IsRouted(s, step.event)
  {
    var at := step.at;
    match step.event
    case FailureReported(category, rebill, mode, now) => HandleFailure(s, category, rebill, mode, cfg, now, at)
    case PaymentCaptured => HandleRecovery(s, at)
    case LinkPaid(link) => HandleLinkPaid(s, link, at)
    case DisputeOpened => DisputeCase(s)
    case CustomerReplied(e, now) => HandleReply(s, e, cfg, now, at)
    case ClaimDue(i, now) => Claim(s, i, now)
    case WaitDone(i, mode, now) => CompleteWait(s, i, mode, cfg, now, at)
    case PtpDone(i) => CompletePtp(s, i, at)
    case DueFollowupRun(i, now) => RunDueFollowup(s, i, now, at)
    case ExternalDone(i, result) => CompleteExternal(s, i, result)
    case ExternalRetry(i, now) => RetryOrFail(s, i, cfg, now)
    case LinkMismatch(i) => ReconciliationFailure(s, i)
    case StaleCancel(i) => CancelIfExecuting(s, i)
    case LeaseSwept(i, now) => RecoverLease(s, i, cfg, now)
  }

  function Apply(s: Case, step: Step, cfg: Settings): Case
    requires IsRouted(s, step.event)
  {
    Effect(s, step, cfg).(clock := step.at)
  }

  /** `steps` is a run from `s` to `t`. */
  ghost predicate IsRun(s: Case, steps: seq<Step>, t: Case, cfg: Settings)
    decreases steps
  {
    if steps == [] then t == s
    else IsEnabled(s, steps[0]) && IsRun(Apply(s, steps[0], cfg), steps[1..], t, cfg)
  }

  /** How a case is created. */
  datatype Opening = Opening(
    category: Category, amount: Option<int>, currency: string, subscriptionLinked: bool,
    alreadyCaptured: bool, mode: Mode, now: int, at: int)

  function Opened(o: Opening, cfg: Settings): Case {
    OpenCase(o.category, o.amount, o.currency, o.subscriptionLinked, o.alreadyCaptured, o.mode, cfg, o.now, o.at)
  }

  ghost predicate Reachable(s: Case, cfg: Settings) {
    exists o: Opening, steps: seq<Step> :: o.now <= o.at && IsRun(Opened(o, cfg), steps, s, cfg)
  }
}
