/** The human-review and promise latch, and the exact order of the terminal states. */
module Latch {
  import opened Rows
  import opened PromiseValidation
  import opened Runtime
  import opened Orchestrator
  import opened Protocol
  import opened LiveAction

  /** No decision is recorded, and no contact or wait is (re)scheduled. */
  ghost predicate NoNewOutreach(s: Case, t: Case) {
    && t.decisions == s.decisions
    && |s.actions| <= |t.actions|
    && (forall i :: |s.actions| <= i < |t.actions| ==> t.actions[i].kind.FollowUpPtp?)
    && (forall i :: 0 <= i < |s.actions| && t.actions[i].status.Scheduled? ==>
          s.actions[i].status.Scheduled? || s.actions[i].kind.FollowUpPtp?)
    && t.effects == s.effects
  }

  ghost predicate KeepsLatch(s: Case, t: Case) { IsLatched(t) && NoNewOutreach(s, t) }

  lemma ReplyKeepsLatch(s: Case, e: Extraction, cfg: Settings, now: int, at: int)
    requires Core(s) && IsLatched(s)
    ensures KeepsLatch(s, HandleReply(s, e, cfg, now, at).(clock := at))
  {
    var t := HandleReply(s, e, cfg, now, at);
    if t.state.AwaitingOutcome? && t.promises != s.promises {
      assert t.promises[|s.promises|].status.Pending?;
    }
  }

  lemma InboundKeepsLatch(s: Case, step: Step, cfg: Settings)
    requires Core(s) && IsEnabled(s, step) && IsLatched(s) && IsInbound(step.event)
    ensures KeepsLatch(s, Apply(s, step, cfg))
  {
    var t := Apply(s, step, cfg);
    match step.event
    case FailureReported(_, _, _, _) =>
      assert t.promises == s.promises && t.state == s.state;
    case CustomerReplied(e, now) => ReplyKeepsLatch(s, e, cfg, now, step.at);
    case _ =>
  }

  lemma FollowupKeepsLatch(s: Case, i: nat, now: int, at: int)
    requires Core(s) && IsLatched(s)
    ensures HasAction(s, i) && s.actions[i].kind.FollowUpPtp? ==> KeepsLatch(s, CompletePtp(s, i, at).(clock := at))
    ensures KeepsLatch(s, RunDueFollowup(s, i, now, at).(clock := at))
  {
    if HasAction(s, i) && s.state.AwaitingOutcome? {
      NewestPromiseIsPending(s);
      OnlyNewestGoesForward(s, i);
    }
  }

  lemma LeaseKeepsLatch(s: Case, i: nat, cfg: Settings, now: int, at: int)
    requires Core(s) && IsLatched(s)
    ensures KeepsLatch(s, Claim(s, i, now).(clock := at))
    ensures KeepsLatch(s, RecoverLease(s, i, cfg, now).(clock := at))
  {
  }

  lemma WorkerKeepsLatch(s: Case, step: Step, cfg: Settings)
    requires Core(s) && IsEnabled(s, step) && IsLatched(s) && !IsInbound(step.event)
    ensures KeepsLatch(s, Apply(s, step, cfg))
  {
    match step.event
    case PtpDone(i) => FollowupKeepsLatch(s, i, step.at, step.at);
    case DueFollowupRun(i, now) => FollowupKeepsLatch(s, i, now, step.at);
    case ClaimDue(i, now) => LeaseKeepsLatch(s, i, cfg, now, step.at);
    case LeaseSwept(i, now) => LeaseKeepsLatch(s, i, cfg, now, step.at);
    case _ =>
  }

  /** Once latched, every step keeps the case latched and adds no decision and no outreach. */
  lemma StepKeepsLatch(s: Case, step: Step, cfg: Settings)
    requires Core(s) && IsEnabled(s, step) && IsLatched(s)
    ensures var t := Apply(s, step, cfg); IsLatched(t) && NoNewOutreach(s, t)
  {
    if IsInbound(step.event) {
      InboundKeepsLatch(s, step, cfg);
    } else {
      WorkerKeepsLatch(s, step, cfg);
    }
  }

  /** A pending promise latches the case. */
  lemma PendingPromiseLatches(s: Case)
    requires Core(s) && HasPendingPromise(s.promises)
    ensures IsLatched(s)
  {
  }

  /** Where each step takes a case that is already terminal. */
  function AfterTerminal(s: Case, e: Event): CaseState {
    match e
    case DisputeOpened => Disputed
    case PaymentCaptured => if s.state.Stopped? then Recovered else s.state
    case LinkPaid(link) => if s.state.Stopped? && s.link == Some(link) then Recovered else s.state
    case LinkMismatch(i) => if IsExecuting(s, i) then HumanReview else s.state
    case _ => s.state
  }

  /**
    DISPUTED is left only by a mismatch write, RECOVERED only by a dispute or a mismatch write,
    STOPPED only by a recovery, a dispute or a mismatch write, and a mismatch write moves a
    terminal case only while its payment-link action is still EXECUTING.
   */
  lemma TerminalOrder(s: Case, step: Step, cfg: Settings)
    requires Core(s) && IsEnabled(s, step) && IsTerminal(s.state)
    ensures Apply(s, step, cfg).state == AfterTerminal(s, step.event)
    ensures !IsTerminal(Apply(s, step, cfg).state) <==>
            step.event.LinkMismatch? && s.actions[step.event.i].kind.CreatePaymentLink? && IsExecuting(s, step.event.i)
  {
    if !IsInbound(step.event) {
      WorkerKeepsLatch(s, step, cfg);
    }
  }

  predicate IsPayment(s: Case, e: Event) { e.PaymentCaptured? || (e.LinkPaid? && s.link == Some(e.paidLink)) }

  predicate IsDispute(s: Case, e: Event) {
    || e.DisputeOpened?
    || (e.CustomerReplied? && IsReplyable(s.state)
        && (e.extraction.intent.DisputeIntent? || e.extraction.intent.PaymentClaim?))
  }

  lemma WorkersNeverClose(s: Case, step: Step, cfg: Settings)
    requires IsEnabled(s, step) && !IsInbound(step.event)
    ensures var t := Apply(s, step, cfg);
            (t.state.Recovered? ==> s.state.Recovered?) && (t.state.Disputed? ==> s.state.Disputed?)
  {
  }

  /**
    Only the provider establishes a payment: a case becomes RECOVERED exactly on a capture, or on
    the payment of its own link, and DISPUTED exactly on a dispute or a customer who disputes or
    claims to have paid. No worker, sweep or policy step ever does either.
   */
  lemma OnlyPaymentsRecover(s: Case, step: Step, cfg: Settings)
    requires IsEnabled(s, step)
    ensures var t := Apply(s, step, cfg);
            && (t.state.Recovered? && !s.state.Recovered? <==>
                !s.state.Recovered? && !s.state.Disputed? && IsPayment(s, step.event))
            && (t.state.Disputed? && !s.state.Disputed? <==> !s.state.Disputed? && IsDispute(s, step.event))
  {
    if !IsInbound(step.event) {
      WorkersNeverClose(s, step, cfg);
    }
  }
}
