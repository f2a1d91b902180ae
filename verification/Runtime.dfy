/**
  temporal_runtime.py, action_executor.py and ptp_followup.py: what each worker or reconciler
  transaction does to the case it locks. `at` is the commit time, `now` the time the worker
  started with. A transaction that finds nothing to do returns the case unchanged.
 */
module Runtime {
  import opened Rows
  import opened GuardrailEngine
  import opened PolicyDispatch

  predicate HasAction(s: Case, i: nat) { i < |s.actions| }

  predicate IsExecuting(s: Case, i: nat) { HasAction(s, i) && s.actions[i].status.Executing? }

  /** `_is_superseded`. */
  predicate IsSuperseded(actions: seq<Action>, i: nat)
    requires i < |actions|
  {
    exists j :: 0 <= j < |actions| && j != i
      && actions[j].createdAt > actions[i].createdAt && IsBlocking(actions[j])
  }

  predicate PromiseIsPending(s: Case, a: Action) {
    a.promise.Some? && a.promise.value < |s.promises| && s.promises[a.promise.value].status.Pending?
  }

  /** The eligibility test of `_claim_action`, which `_claimed_action_is_eligible` repeats. */
  predicate IsEligible(s: Case, i: nat)
    requires HasAction(s, i)
  {
    var a := s.actions[i];
    && !IsTerminal(s.state)
    && !IsSuperseded(s.actions, i)
    && (|| (IsWait(a.kind) && s.state.Waiting?)
        || (IsContact(a.kind) && s.state.ActionScheduled?)
        || (a.kind.FollowUpPtp? && s.state.AwaitingOutcome? && PromiseIsPending(s, a)))
  }

  function Put(s: Case, i: nat, a: Action): Case
    requires HasAction(s, i)
  {
    s.(actions := s.actions[i := a])
  }

  function SetStatus(s: Case, i: nat, status: ActionStatus): Case
    requires HasAction(s, i)
  {
    Put(s, i, s.actions[i].(status := status))
  }

  /** `_claim_action`. */
  function Claim(s: Case, i: nat, now: int): Case {
    if !HasAction(s, i) || !s.actions[i].status.Scheduled? || s.actions[i].scheduledFor > now then s
    else if !IsEligible(s, i) then SetStatus(s, i, Cancelled)
    else
      var a := s.actions[i];
      Put(s, i, a.(status := Executing, claimedAt := Some(now), attempts := a.attempts + 1))
  }

  /** `policy_dispatcher.decide_for_case` on a case whose queries see `seen`. */
  function Decide(s: Case, cause: Cause, seen: Seen, mode: Mode, cfg: Settings, now: int, at: int): (t: Case)
    ensures s.state.Diagnosed? ==>
              t == RecordDecision(s, Choice(mode, seen, Seen(s.actions, s.failures), SubjectOf(s), cfg, now), cause,
                  cfg, now, at)
  {
    match Dispatch(mode, SessionOn(s, seen), cfg, now)
    case None => s
    case Some(chosen) => RecordDecision(s, chosen, cause, cfg, now, at)
  }

  function WaitedCase(s: Case, i: nat): Case
    requires HasAction(s, i)
  {
    SetStatus(s, i, Executed).(state := Diagnosed)
  }

  /** `_complete_wait`: the wait is flushed as EXECUTED before the policy looks. */
  function CompleteWait(s: Case, i: nat, mode: Mode, cfg: Settings, now: int, at: int): Case {
    if !IsExecuting(s, i) then s
    else if !s.state.Waiting? || IsSuperseded(s.actions, i) then SetStatus(s, i, Cancelled)
    else
      var done := WaitedCase(s, i);
      Decide(done, ByWait, Seen(done.actions, done.failures), mode, cfg, now, at)
  }

  function SetPromise(s: Case, p: nat, status: PromiseStatus, at: int): Case
    requires p < |s.promises|
  {
    s.(promises := s.promises[p := s.promises[p].(status := status, resolvedAt := Some(at))])
  }

  /** `complete_followup`. */
  function CompleteFollowup(s: Case, i: nat, at: int): Case
    requires HasAction(s, i)
  {
    var a := s.actions[i];
    if IsTerminal(s.state) || !PromiseIsPending(s, a) then
      var kept := if PromiseIsPending(s, a) && s.state.Recovered? then SetPromise(s, a.promise.value, Kept, at) else s;
      SetStatus(kept, i, Executed)
    else
      SetStatus(SetPromise(s, a.promise.value, Broken, at), i, Executed).(state := HumanReview)
  }

  /** `_complete_ptp`. */
  function CompletePtp(s: Case, i: nat, at: int): Case {
    if !IsExecuting(s, i) then s
    else if !s.state.AwaitingOutcome? || IsSuperseded(s.actions, i) then SetStatus(s, i, Cancelled)
    else CompleteFollowup(s, i, at)
  }

  /** One turn of `process_due_followups`. */
  function RunDueFollowup(s: Case, i: nat, now: int, at: int): Case {
    if !HasAction(s, i) || !s.actions[i].kind.FollowUpPtp? || !s.actions[i].status.Scheduled?
       || s.actions[i].scheduledFor > now then s
    else CompleteFollowup(s, i, at)
  }

  /** `apply_success`. */
  function ApplySuccess(s: Case, i: nat, result: Option<string>): Case
    requires HasAction(s, i)
  {
    var a := s.actions[i];
    Put(s, i, a.(status := Executed, link := result)).(
      link := if a.kind.CreatePaymentLink? then result else s.link,
      effects := s.effects + [i],
      state := AwaitingOutcome)
  }

  /** `_complete_external`. */
  function CompleteExternal(s: Case, i: nat, result: Option<string>): Case {
    if !IsExecuting(s, i) then s
    else if !s.state.ActionScheduled? || IsSuperseded(s.actions, i) then SetStatus(s, i, Cancelled)
    else ApplySuccess(s, i, result)
  }

  /** `apply_terminal_failure`, `apply_reconciliation_failure`. */
  function FailToReview(s: Case, i: nat): Case
    requires HasAction(s, i)
  {
    SetStatus(s, i, Failed).(state := HumanReview)
  }

  function RetryDelay(cfg: Settings, attempts: nat): nat {
    cfg.retryDelay * Pow2(if attempts == 0 then 0 else attempts - 1)
  }

  /** The state change shared by `_record_external_failure` and `_schedule_ambiguous_retry`. */
  function RetryOrFail(s: Case, i: nat, cfg: Settings, now: int): Case {
    if !IsExecuting(s, i) then s
    else if !s.state.ActionScheduled? || IsSuperseded(s.actions, i) then SetStatus(s, i, Cancelled)
    else if s.actions[i].attempts < s.actions[i].maxAttempts then
      var a := s.actions[i];
      var delay := RetryDelay(cfg, a.attempts);
      Put(s, i, a.(status := Scheduled, scheduledFor := now + delay * SECOND, claimedAt := None,
                   backoff := a.backoff + delay))
    else FailToReview(s, i)
  }

  /** The mismatch writes: only the action status is looked at, never the case state. */
  function ReconciliationFailure(s: Case, i: nat): Case {
    if IsExecuting(s, i) then FailToReview(s, i) else s
  }

  /** The delayed cancel after an unlocked look found the case terminal or the action superseded. */
  function CancelIfExecuting(s: Case, i: nat): Case {
    if IsExecuting(s, i) then SetStatus(s, i, Cancelled) else s
  }

  predicate LeaseExpired(a: Action, cfg: Settings, now: int) {
    a.status.Executing? && a.claimedAt.Some? && a.claimedAt.value <= now - cfg.claimTimeout * SECOND
  }

  /** The generic branch of `reconcile_actions` for one expired claim. */
  function RecoverLease(s: Case, i: nat, cfg: Settings, now: int): Case {
    if !HasAction(s, i) || !LeaseExpired(s.actions[i], cfg, now) then s
    else if !IsEligible(s, i) then SetStatus(s, i, Cancelled)
    else if s.actions[i].attempts >= s.actions[i].maxAttempts then FailToReview(s, i)
    else Put(s, i, s.actions[i].(status := Scheduled, scheduledFor := now, claimedAt := None))
  }
}
