/** Every way a row can change, and the attempt and backoff bounds that follow. */
module AttemptBudget {
  import opened Rows
  import opened Runtime
  import opened Protocol
  import opened LiveAction
  import opened History

  /** Every way a row can change in one transaction. */
  predicate RowTransition(a: Action, b: Action, cfg: Settings) {
    || b == a
    || (IsLive(a) && b == a.(status := Cancelled))
    || (a.status.Scheduled? && b.claimedAt.Some?
        && b == a.(status := Executing, claimedAt := b.claimedAt, attempts := a.attempts + 1))
    || ((a.status.Executing? || (a.status.Scheduled? && a.kind.FollowUpPtp?))
        && b == a.(status := Executed, link := b.link))
    || (a.status.Executing? && b == a.(status := Failed))
    || (a.status.Executing? && a.attempts < a.maxAttempts
        && (b.backoff == a.backoff || b.backoff == a.backoff + RetryDelay(cfg, a.attempts))
        && b == a.(status := Scheduled, scheduledFor := b.scheduledFor, claimedAt := None, backoff := b.backoff))
  }

  predicate IsFreshRow(a: Action, cfg: Settings) {
    && a.attempts == 0 && a.backoff == 0 && a.maxAttempts == cfg.maxAttempts && a.link == None
    && (a.status.Scheduled? || (a.status.Executed? && !IsContact(a.kind) && !IsWait(a.kind)))
  }

  ghost predicate RowsTransition(old': seq<Action>, new': seq<Action>, cfg: Settings) {
    && |old'| <= |new'| <= |old'| + 1
    && (forall i :: 0 <= i < |old'| ==> RowTransition(old'[i], new'[i], cfg))
    && (|new'| > |old'| ==> IsFreshRow(new'[|old'|], cfg))
  }

  lemma FailureTransitions(s: Case, step: Step, cfg: Settings, i: nat)
    requires Core(s) && IsEnabled(s, step) && step.event.FailureReported? && i < |s.actions|
    ensures var t := Apply(s, step, cfg); i < |t.actions| && RowTransition(s.actions[i], t.actions[i], cfg)
  {
    var t := Apply(s, step, cfg);
    FailureShape(s, step.event.category, step.event.rebill, step.event.mode, cfg, step.event.now, step.at);
    if t.actions != s.actions {
      assert t.actions[i] == t.actions[..|s.actions|][i];
    }
  }

  lemma WaitTransitions(s: Case, step: Step, cfg: Settings, i: nat)
    requires Core(s) && IsEnabled(s, step) && step.event.WaitDone? && i < |s.actions|
    ensures var t := Apply(s, step, cfg); i < |t.actions| && RowTransition(s.actions[i], t.actions[i], cfg)
  {
    var WaitDone(k, mode, now) := step.event;
    if IsExecuting(s, k) && s.state.Waiting? && !IsSuperseded(s.actions, k) {
      WaitShape(s, k, mode, cfg, now, step.at);
      var t := CompleteWait(s, k, mode, cfg, now, step.at).actions;
      assert t[i] == t[..|s.actions|][i];
    }
  }

  ghost predicate AppendsAtMostFresh(old': seq<Action>, new': seq<Action>, cfg: Settings) {
    |old'| <= |new'| <= |old'| + 1 && (|new'| > |old'| ==> IsFreshRow(new'[|old'|], cfg))
  }

  lemma InboundAppendsFreshRow(s: Case, step: Step, cfg: Settings)
    requires IsEnabled(s, step) && IsInbound(step.event)
    ensures AppendsAtMostFresh(s.actions, Apply(s, step, cfg).actions, cfg)
  {
  }

  lemma WorkerAppendsFreshRow(s: Case, step: Step, cfg: Settings)
    requires IsEnabled(s, step) && !IsInbound(step.event)
    ensures AppendsAtMostFresh(s.actions, Apply(s, step, cfg).actions, cfg)
  {
  }

  lemma InboundRowTransitions(s: Case, step: Step, cfg: Settings, i: nat)
    requires Core(s) && IsEnabled(s, step) && IsInbound(step.event) && i < |s.actions|
    ensures var t := Apply(s, step, cfg); i < |t.actions| && RowTransition(s.actions[i], t.actions[i], cfg)
  {
    if step.event.FailureReported? {
      FailureTransitions(s, step, cfg, i);
    }
  }

  /** The steps that end a claim with success. */
  predicate IsCompletion(e: Event) { e.ExternalDone? || e.PtpDone? || e.DueFollowupRun? }

  lemma CompletionTransitions(s: Case, step: Step, cfg: Settings, i: nat)
    requires IsEnabled(s, step) && IsCompletion(step.event) && i < |s.actions|
    ensures var t := Apply(s, step, cfg); i < |t.actions| && RowTransition(s.actions[i], t.actions[i], cfg)
  {
  }

  /** Claims, retries, cancellations, mismatch writes and recovered leases. */
  lemma LeaseTransitions(s: Case, step: Step, cfg: Settings, i: nat)
    requires IsEnabled(s, step) && !IsInbound(step.event) && i < |s.actions|
    requires !step.event.WaitDone? && !IsCompletion(step.event)
    ensures var t := Apply(s, step, cfg); i < |t.actions| && RowTransition(s.actions[i], t.actions[i], cfg)
  {
    match step.event
    case ExternalRetry(k, now) => RetryTransitions(s, k, cfg, now, i);
    case LeaseSwept(k, now) => RecoveryTransitions(s, k, cfg, now, i);
    case _ =>
  }

  lemma RetryTransitions(s: Case, k: nat, cfg: Settings, now: int, i: nat)
    requires i < |s.actions|
    ensures var t := RetryOrFail(s, k, cfg, now); i < |t.actions| && RowTransition(s.actions[i], t.actions[i], cfg)
  {
  }

  lemma RecoveryTransitions(s: Case, k: nat, cfg: Settings, now: int, i: nat)
    requires i < |s.actions|
    ensures var t := RecoverLease(s, k, cfg, now); i < |t.actions| && RowTransition(s.actions[i], t.actions[i], cfg)
  {
  }

  lemma WorkerRowTransitions(s: Case, step: Step, cfg: Settings, i: nat)
    requires Core(s) && IsEnabled(s, step) && !IsInbound(step.event) && i < |s.actions|
    ensures var t := Apply(s, step, cfg); i < |t.actions| && RowTransition(s.actions[i], t.actions[i], cfg)
  {
    if step.event.WaitDone? {
      WaitTransitions(s, step, cfg, i);
    } else if IsCompletion(step.event) {
      CompletionTransitions(s, step, cfg, i);
    } else {
      LeaseTransitions(s, step, cfg, i);
    }
  }

  lemma StepTransitions(s: Case, step: Step, cfg: Settings)
    requires Core(s) && IsEnabled(s, step)
    ensures RowsTransition(s.actions, Apply(s, step, cfg).actions, cfg)
  {
    var t := Apply(s, step, cfg).actions;
    if IsInbound(step.event) {
      InboundAppendsFreshRow(s, step, cfg);
      forall i | 0 <= i < |s.actions| ensures RowTransition(s.actions[i], t[i], cfg) {
        InboundRowTransitions(s, step, cfg, i);
      }
    } else {
      WorkerAppendsFreshRow(s, step, cfg);
      forall i | 0 <= i < |s.actions| ensures RowTransition(s.actions[i], t[i], cfg) {
        WorkerRowTransitions(s, step, cfg, i);
      }
    }
  }

  // ---- Attempts and backoff ----

  /** How many delays a row can have collected, given where it stands. */
  function DelaysSoFar(a: Action): nat {
    match a.status
    case Scheduled => a.attempts
    case Executing => if a.attempts == 0 then 0 else a.attempts - 1
    case _ => if a.maxAttempts == 0 then 0 else a.maxAttempts - 1
  }

  predicate WithinBudget(a: Action, cfg: Settings) {
    && a.maxAttempts == cfg.maxAttempts
    && a.attempts <= a.maxAttempts
    && (a.status.Scheduled? ==> a.attempts < a.maxAttempts)
    && (a.status.Executing? ==> 1 <= a.attempts && a.claimedAt.Some?)
    && a.backoff <= cfg.retryDelay * (Pow2(DelaysSoFar(a)) - 1)
  }

  ghost predicate AllWithinBudget(actions: seq<Action>, cfg: Settings) {
    forall i :: 0 <= i < |actions| ==> WithinBudget(actions[i], cfg)
  }

  lemma {:induction false} Pow2Monotone(m: nat, n: nat)
    requires m <= n
    ensures Pow2(m) <= Pow2(n)
  {
    if m < n {
      Pow2Monotone(m, n - 1);
    }
  }

  lemma ScaleMonotone(x: nat, y: nat, k: nat)
    requires x <= y
    ensures k * x <= k * y
  {
  }

  lemma MoreDelaysAllowMoreBackoff(m: nat, n: nat, cfg: Settings)
    requires m <= n
    ensures cfg.retryDelay * (Pow2(m) - 1) <= cfg.retryDelay * (Pow2(n) - 1)
  {
    Pow2Monotone(m, n);
    ScaleMonotone(Pow2(m) - 1, Pow2(n) - 1, cfg.retryDelay);
  }

  lemma RetryFitsBackoff(backoff: nat, attempts: nat, cfg: Settings)
    requires attempts >= 1
    requires backoff <= cfg.retryDelay * (Pow2(attempts - 1) - 1)
    ensures backoff + RetryDelay(cfg, attempts) <= cfg.retryDelay * (Pow2(attempts) - 1)
  {
    var p := Pow2(attempts - 1);
    assert Pow2(attempts) == 2 * p;
    assert cfg.retryDelay * (p - 1) + cfg.retryDelay * p == cfg.retryDelay * (2 * p - 1);
  }

  /**
    The bound is tight: a row that has used every delay so far collects the next one in full when
    its next attempt fails, and waits exactly that long.
   */
  lemma RetryCycleDoublesDelay(s: Case, i: nat, cfg: Settings, claimedAt: int, failedAt: int)
    requires HasAction(s, i) && s.actions[i].status.Scheduled? && s.actions[i].scheduledFor <= claimedAt
    requires IsContact(s.actions[i].kind) && IsEligible(s, i)
    requires s.actions[i].attempts + 1 < s.actions[i].maxAttempts
    requires s.actions[i].backoff == cfg.retryDelay * (Pow2(s.actions[i].attempts) - 1)
    ensures var n, b := s.actions[i].attempts, RetryOrFail(Claim(s, i, claimedAt), i, cfg, failedAt).actions[i];
            && b.status.Scheduled? && b.attempts == n + 1 && b.claimedAt == None
            && b.scheduledFor == failedAt + cfg.retryDelay * Pow2(n) * SECOND
            && b.backoff == cfg.retryDelay * (Pow2(n + 1) - 1)
  {
    var c := Claim(s, i, claimedAt);
    assert !IsSuperseded(c.actions, i) by {
      assert forall j :: 0 <= j < |s.actions| && j != i ==> c.actions[j] == s.actions[j];
    }
    var p := Pow2(s.actions[i].attempts);
    assert Pow2(s.actions[i].attempts + 1) == 2 * p;
    assert cfg.retryDelay * (p - 1) + cfg.retryDelay * p == cfg.retryDelay * (2 * p - 1);
  }

  lemma TransitionKeepsBudget(a: Action, b: Action, cfg: Settings)
    requires WithinBudget(a, cfg) && RowTransition(a, b, cfg)
    ensures WithinBudget(b, cfg)
  {
    if b != a {
      if a.status.Executing? && b.status.Scheduled? && b.backoff != a.backoff {
        RetryFitsBackoff(a.backoff, a.attempts, cfg);
      }
      MoreDelaysAllowMoreBackoff(DelaysSoFar(a), DelaysSoFar(b), cfg);
    }
  }

  lemma RowsKeepBudget(old': seq<Action>, new': seq<Action>, cfg: Settings)
    requires cfg.maxAttempts >= 1
    requires AllWithinBudget(old', cfg) && RowsTransition(old', new', cfg)
    ensures AllWithinBudget(new', cfg)
  {
    forall i | 0 <= i < |new'| ensures WithinBudget(new'[i], cfg) {
      if i < |old'| {
        TransitionKeepsBudget(old'[i], new'[i], cfg);
      }
    }
  }

  lemma StepKeepsBudget(s: Case, step: Step, cfg: Settings)
    requires Core(s) && IsEnabled(s, step) && cfg.maxAttempts >= 1
    requires AllWithinBudget(s.actions, cfg)
    ensures AllWithinBudget(Apply(s, step, cfg).actions, cfg)
  {
    StepTransitions(s, step, cfg);
    RowsKeepBudget(s.actions, Apply(s, step, cfg).actions, cfg);
  }
}
