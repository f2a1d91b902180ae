/** Promise bookkeeping: when a promise is resolved, and how often. */
module PromiseLedger {
  import opened Rows
  import opened MerchantTime
  import opened PromiseValidation
  import opened Runtime
  import opened Orchestrator
  import opened Protocol
  import opened LiveAction
  import opened History
  import opened AttemptBudget
  import opened Latch

  function Due(p: Promise, cfg: Settings): int { EndOfLocalDayUtc(p.day, cfg.zoneOffset) }

  /** The terms never change, and a promise that left PENDING never changes again. */
  predicate PromiseMoves(p: Promise, q: Promise, at: int) {
    && q.amount == p.amount && q.day == p.day
    && (q == p || (p.status.Pending? && !q.status.Pending? && q.resolvedAt == Some(at)))
  }

  ghost predicate PromisesEvolve(old': seq<Promise>, new': seq<Promise>, at: int) {
    && |old'| <= |new'|
    && forall p :: 0 <= p < |old'| ==> PromiseMoves(old'[p], new'[p], at)
  }

  lemma StepEvolvesPromises(s: Case, step: Step, cfg: Settings)
    requires IsEnabled(s, step)
    ensures PromisesEvolve(s.promises, Apply(s, step, cfg).promises, step.at)
    ensures forall p :: |s.promises| <= p < |Apply(s, step, cfg).promises| ==>
        Apply(s, step, cfg).promises[p].status.Pending?
  {
    match step.event
    case CustomerReplied(e, now) =>
      ReplyEvolvesPromises(s, e, cfg, now, step.at);
    case _ =>
  }

  lemma ReplyEvolvesPromises(s: Case, e: Extraction, cfg: Settings, now: int, at: int)
    ensures var t := HandleReply(s, e, cfg, now, at);
            && PromisesEvolve(s.promises, t.promises, at)
            && forall p :: |s.promises| <= p < |t.promises| ==> t.promises[p].status.Pending?
  {
  }

  /** A follow-up whose promise is not due can only be waiting for a time at or after the due time. */
  predicate FollowUpOnTime(s: Case, a: Action, cfg: Settings)
    requires a.promise.Some? && a.promise.value < |s.promises|
  {
    var due := Due(s.promises[a.promise.value], cfg);
    && (a.status.Scheduled? ==> due <= a.scheduledFor || due <= s.clock)
    && (a.status.Executing? ==> due <= s.clock)
  }

  ghost predicate NeverBrokenEarly(s: Case, cfg: Settings) {
    && (forall i :: 0 <= i < |s.actions| && s.actions[i].kind.FollowUpPtp? ==>
          s.actions[i].promise.Some? && s.actions[i].promise.value < |s.promises|
          && FollowUpOnTime(s, s.actions[i], cfg))
    && (forall p :: 0 <= p < |s.promises| && s.promises[p].status.Broken? ==>
          s.promises[p].resolvedAt.Some? && Due(s.promises[p], cfg) <= s.promises[p].resolvedAt.value)
  }

  lemma ReplyNeverBreaksEarly(s: Case, e: Extraction, cfg: Settings, now: int, at: int)
    requires Core(s) && NeverBrokenEarly(s, cfg) && s.clock < at
    ensures NeverBrokenEarly(HandleReply(s, e, cfg, now, at).(clock := at), cfg)
  {
    var t := HandleReply(s, e, cfg, now, at).(clock := at);
    ReplyEvolvesPromises(s, e, cfg, now, at);
    forall i | 0 <= i < |t.actions| && t.actions[i].kind.FollowUpPtp?
      ensures t.actions[i].promise.Some? && t.actions[i].promise.value < |t.promises|
      ensures FollowUpOnTime(t, t.actions[i], cfg)
    {
      if i < |s.actions| {
        assert FollowUpOnTime(s, s.actions[i], cfg);
      }
    }
  }

  lemma FailureNeverBreaksEarly(s: Case, step: Step, cfg: Settings)
    requires Core(s) && NeverBrokenEarly(s, cfg) && IsEnabled(s, step) && step.event.FailureReported?
    ensures NeverBrokenEarly(Apply(s, step, cfg), cfg)
  {
    var t := Apply(s, step, cfg);
    FailureShape(s, step.event.category, step.event.rebill, step.event.mode, cfg, step.event.now, step.at);
    StepEvolvesRows(s, step, cfg);
    assert t.promises == s.promises;
    forall i | 0 <= i < |t.actions| && t.actions[i].kind.FollowUpPtp?
      ensures t.actions[i].promise.Some? && t.actions[i].promise.value < |t.promises|
      ensures FollowUpOnTime(t, t.actions[i], cfg)
    {
      if t.actions != s.actions {
        assert t.actions[i] == t.actions[..|s.actions|][i];
      }
      assert FollowUpOnTime(s, s.actions[i], cfg);
    }
  }

  lemma WaitNeverBreaksEarly(s: Case, step: Step, cfg: Settings)
    requires Core(s) && NeverBrokenEarly(s, cfg) && IsEnabled(s, step) && step.event.WaitDone?
    ensures NeverBrokenEarly(Apply(s, step, cfg), cfg)
  {
    var t := Apply(s, step, cfg);
    var WaitDone(k, mode, now) := step.event;
    if IsExecuting(s, k) && s.state.Waiting? && !IsSuperseded(s.actions, k) {
      WaitShape(s, k, mode, cfg, now, step.at);
      assert t.promises == s.promises;
      forall i | 0 <= i < |t.actions| && t.actions[i].kind.FollowUpPtp?
        ensures t.actions[i].promise.Some? && t.actions[i].promise.value < |t.promises|
        ensures FollowUpOnTime(t, t.actions[i], cfg)
      {
        assert t.actions[i] == t.actions[..|s.actions|][i];
        assert FollowUpOnTime(s, s.actions[i], cfg);
      }
    }
  }

  predicate IsPlain(e: Event) { !e.FailureReported? && !e.WaitDone? && !e.CustomerReplied? }

  /** A row is claimed only once it is due. */
  lemma ClaimedOnlyWhenDue(s: Case, step: Step, cfg: Settings, i: nat)
    requires Core(s) && IsEnabled(s, step)
    requires i < |s.actions| && i < |Apply(s, step, cfg).actions|
    requires s.actions[i].status.Scheduled? && Apply(s, step, cfg).actions[i].status.Executing?
    ensures s.actions[i].scheduledFor <= step.at
  {
    OnlyClaimsStart(s, step, cfg, i);
  }

  lemma RowStaysOnTime(s: Case, step: Step, cfg: Settings, i: nat)
    requires Core(s) && NeverBrokenEarly(s, cfg) && IsEnabled(s, step) && IsPlain(step.event)
    requires i < |s.actions| && s.actions[i].kind.FollowUpPtp?
    requires |Apply(s, step, cfg).actions| == |s.actions| && |Apply(s, step, cfg).promises| == |s.promises|
    ensures var t := Apply(s, step, cfg);
            && t.actions[i].promise == s.actions[i].promise
            && FollowUpOnTime(t, t.actions[i], cfg)
  {
    var t := Apply(s, step, cfg);
    StepEvolvesPromises(s, step, cfg);
    StepTransitions(s, step, cfg);
    if s.actions[i].status.Scheduled? && t.actions[i].status.Executing? {
      ClaimedOnlyWhenDue(s, step, cfg, i);
    }
    TransitionStaysOnTime(s, t, i, cfg);
  }

  lemma TransitionStaysOnTime(s: Case, t: Case, i: nat, cfg: Settings)
    requires NeverBrokenEarly(s, cfg) && s.clock <= t.clock
    requires i < |s.actions| == |t.actions| && s.actions[i].kind.FollowUpPtp?
    requires RowTransition(s.actions[i], t.actions[i], cfg)
    requires s.actions[i].status.Scheduled? && t.actions[i].status.Executing? ==> s.actions[i].scheduledFor <= t.clock
    requires |t.promises| == |s.promises| && forall p :: 0 <= p < |s.promises| ==>
        t.promises[p].day == s.promises[p].day
    ensures t.actions[i].promise == s.actions[i].promise
    ensures FollowUpOnTime(t, t.actions[i], cfg)
  {
    assert FollowUpOnTime(s, s.actions[i], cfg);
  }

  lemma BrokenOnlyWhenDue(s: Case, step: Step, cfg: Settings, p: nat)
    requires Core(s) && NeverBrokenEarly(s, cfg) && IsEnabled(s, step) && IsPlain(step.event)
    requires p < |s.promises| && p < |Apply(s, step, cfg).promises|
    requires Apply(s, step, cfg).promises[p].status.Broken?
    ensures var q := Apply(s, step, cfg).promises[p]; q.resolvedAt.Some? && Due(q, cfg) <= q.resolvedAt.value
  {
    if !s.promises[p].status.Broken? {
      StepEvolvesPromises(s, step, cfg);
      assert step.event.PtpDone? || step.event.DueFollowupRun?;
      assert FollowUpOnTime(s, s.actions[step.event.i], cfg);
    }
  }

  lemma PlainStepsNeverBreakEarly(s: Case, step: Step, cfg: Settings)
    requires Core(s) && NeverBrokenEarly(s, cfg) && IsEnabled(s, step) && IsPlain(step.event)
    ensures NeverBrokenEarly(Apply(s, step, cfg), cfg)
  {
    var t := Apply(s, step, cfg);
    PlainStepsKeepLengths(s, step, cfg);
    StepEvolvesRows(s, step, cfg);
    forall i | 0 <= i < |t.actions| && t.actions[i].kind.FollowUpPtp?
      ensures t.actions[i].promise.Some? && t.actions[i].promise.value < |t.promises|
      ensures FollowUpOnTime(t, t.actions[i], cfg)
    {
      RowStaysOnTime(s, step, cfg, i);
    }
    forall p | 0 <= p < |t.promises| && t.promises[p].status.Broken?
      ensures t.promises[p].resolvedAt.Some? && Due(t.promises[p], cfg) <= t.promises[p].resolvedAt.value
    {
      BrokenOnlyWhenDue(s, step, cfg, p);
    }
  }

  predicate SameLengths(s: Case, t: Case) { |t.actions| == |s.actions| && |t.promises| == |s.promises| }

  lemma FollowupKeepsLengths(s: Case, i: nat, now: int, at: int)
    ensures SameLengths(s, CompletePtp(s, i, at)) && SameLengths(s, RunDueFollowup(s, i, now, at))
  {
  }

  lemma PlainStepsKeepLengths(s: Case, step: Step, cfg: Settings)
    requires IsEnabled(s, step) && IsPlain(step.event)
    ensures SameLengths(s, Apply(s, step, cfg))
  {
    match step.event
    case PtpDone(i) => FollowupKeepsLengths(s, i, step.at, step.at);
    case DueFollowupRun(i, now) => FollowupKeepsLengths(s, i, now, step.at);
    case _ =>
  }

  /** No step marks a promise BROKEN before the merchant-local day of the promise has ended. */
  lemma StepNeverBreaksEarly(s: Case, step: Step, cfg: Settings)
    requires Core(s) && NeverBrokenEarly(s, cfg) && IsEnabled(s, step)
    ensures NeverBrokenEarly(Apply(s, step, cfg), cfg)
  {
    match step.event
    case FailureReported(_, _, _, _) => FailureNeverBreaksEarly(s, step, cfg);
    case WaitDone(_, _, _) => WaitNeverBreaksEarly(s, step, cfg);
    case CustomerReplied(e, now) => ReplyNeverBreaksEarly(s, e, cfg, now, step.at);
    case _ => PlainStepsNeverBreakEarly(s, step, cfg);
  }

  // ---- Exactly when a promise leaves PENDING ----

  /** Step `step` resolves promise `p` to `to`, for the first time. */
  predicate Resolves(s: Case, step: Step, cfg: Settings, p: nat, to: PromiseStatus)
    requires IsRouted(s, step.event) && p < |s.promises|
  {
    var t := Apply(s, step, cfg);
    p < |t.promises| && t.promises[p].status == to && s.promises[p].status != to
  }

  lemma ResolvingStampsTheStep(s: Case, step: Step, cfg: Settings, p: nat, to: PromiseStatus)
    requires IsEnabled(s, step) && p < |s.promises| && Resolves(s, step, cfg, p, to)
    ensures s.promises[p].status.Pending? && !to.Pending?
    ensures Apply(s, step, cfg).promises[p] == s.promises[p].(status := to, resolvedAt := Some(step.at))
  {
    StepEvolvesPromises(s, step, cfg);
  }

  /**
    A promise is KEPT exactly by a payment that recovers the case while the promise is open, and
    stamped with the time of that payment. No follow-up ever keeps one.
   */
  lemma KeptExactlyByRecovery(s: Case, step: Step, cfg: Settings, p: nat)
    requires Core(s) && IsEnabled(s, step) && p < |s.promises|
    ensures Resolves(s, step, cfg, p, Kept) <==>
            && s.promises[p].status.Pending? && IsPayment(s, step.event)
            && !s.state.Recovered? && !s.state.Disputed?
    ensures Resolves(s, step, cfg, p, Kept) ==>
              var t := Apply(s, step, cfg);
              t.state.Recovered? && t.promises[p] == s.promises[p].(status := Kept, resolvedAt := Some(step.at))
  {
    if Resolves(s, step, cfg, p, Kept) {
      ResolvingStampsTheStep(s, step, cfg, p, Kept);
      PendingIsNewest(s, p);
    }
  }

  /** A promise is SUPERSEDED exactly by a reply that brings a newer one, which is then the open promise. */
  lemma SupersededExactlyByReply(s: Case, step: Step, cfg: Settings, p: nat)
    requires Core(s) && IsEnabled(s, step) && p < |s.promises|
    ensures var t := Apply(s, step, cfg);
            Resolves(s, step, cfg, p, Superseded) <==>
            && s.promises[p].status.Pending? && step.event.CustomerReplied?
            && |t.promises| == |s.promises| + 1 && t.promises[|s.promises|].status.Pending?
  {
    if Resolves(s, step, cfg, p, Superseded) {
      ResolvingStampsTheStep(s, step, cfg, p, Superseded);
    }
  }

  /** The follow-up of promise `p` comes to its end. */
  predicate FollowUpEnds(s: Case, e: Event, p: nat) {
    match e
    case PtpDone(i) =>
      IsExecuting(s, i) && i == |s.actions| - 1 && s.state.AwaitingOutcome? && s.actions[i].promise == Some(p)
    case DueFollowupRun(i, now) =>
      && HasAction(s, i) && s.actions[i].kind.FollowUpPtp? && s.actions[i].status.Scheduled?
      && s.actions[i].scheduledFor <= now && s.actions[i].promise == Some(p)
    case _ => false
  }

  /** A promise is BROKEN exactly when its own follow-up ends while the promise is open. */
  lemma BrokenExactlyByFollowUp(s: Case, step: Step, cfg: Settings, p: nat)
    requires Core(s) && IsEnabled(s, step) && p < |s.promises|
    ensures Resolves(s, step, cfg, p, Broken) <==>
            s.promises[p].status.Pending? && FollowUpEnds(s, step.event, p)
  {
    if Resolves(s, step, cfg, p, Broken) {
      ResolvingStampsTheStep(s, step, cfg, p, Broken);
    }
    if s.promises[p].status.Pending? && step.event.PtpDone? {
      PendingIsNewest(s, p);
      if s.state.AwaitingOutcome? {
        OnlyNewestGoesForward(s, step.event.i);
      }
    }
  }
}
