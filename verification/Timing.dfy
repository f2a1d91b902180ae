/** When an action can start: what is claimed, and from which instant on. */
module Timing {
  import opened Rows
  import opened GuardrailEngine
  import opened MerchantTime
  import opened PromiseValidation
  import opened Runtime
  import opened Orchestrator
  import opened Protocol
  import opened LiveAction
  import opened History

  /** The case is in the state that awaits this kind of action, and a follow-up still has its promise. */
  predicate Awaits(s: Case, a: Action) {
    || (IsWait(a.kind) && s.state.Waiting?)
    || (IsContact(a.kind) && s.state.ActionScheduled?)
    || (a.kind.FollowUpPtp? && s.state.AwaitingOutcome? && PromiseIsPending(s, a))
  }

  /** Work starts only by a claim, on the newest action, when it is due and the case awaits just that. */
  lemma OnlyAwaitedWorkStarts(s: Case, step: Step, cfg: Settings, i: nat)
    requires Core(s) && IsEnabled(s, step) && i < |s.actions| && i < |Apply(s, step, cfg).actions|
    requires s.actions[i].status.Scheduled? && Apply(s, step, cfg).actions[i].status.Executing?
    ensures step.event.ClaimDue? && step.event.i == i && i == |s.actions| - 1
    ensures s.actions[i].scheduledFor <= step.event.now && Awaits(s, s.actions[i])
  {
    OnlyClaimsStart(s, step, cfg, i);
  }

  /** How long the policy lets an action rest before it may start. */
  function Rest(kind: ActionType, cfg: Settings): int {
    if kind.Wait? then cfg.waitDelay * SECOND
    else if kind.WaitForNativeRetry? then cfg.nativeRetryDelay * SECOND
    else 0
  }

  /** A decided wait or contact can be started exactly from the end of its rest on. */
  lemma DecidedActionStartsExactlyWhenDue(s: Case, chosen: ActionType, cause: Cause, cfg: Settings, now: int, at: int,
      t: int)
    requires Ordered(s) && s.clock < at
    requires IsWait(chosen) || IsContact(chosen)
    ensures var i := |s.actions|;
            Claim(RecordDecision(s, chosen, cause, cfg, now, at), i, t).actions[i].status.Executing? <==>
                t >= now + Rest(chosen, cfg)
  {
    var d := RecordDecision(s, chosen, cause, cfg, now, at);
    assert !IsSuperseded(d.actions, |s.actions|);
  }

  /** The follow-up of an accepted promise can be started exactly once the promised local day is over. */
  lemma FollowUpStartsExactlyAfterTheDay(s: Case, e: Extraction, cfg: Settings, now: int, at: int, t: int)
    requires Ordered(s) && s.clock < at
    requires IsReplyable(s.state) && e.intent.PromiseToPay?
    requires ValidatePromise(e, s.amount, UtcToLocal(now, cfg.zoneOffset)).Valid?
    ensures var r, i := HandleReply(s, e, cfg, now, at), |s.actions|;
            && |r.actions| == i + 1 && |r.promises| == |s.promises| + 1
            && (Claim(r, i, t).actions[i].status.Executing? <==>
                DayOf(UtcToLocal(t, cfg.zoneOffset)) > r.promises[|s.promises|].day)
  {
    var r, i := HandleReply(s, e, cfg, now, at), |s.actions|;
    var promise := r.promises[|s.promises|];
    EndOfDayIsExclusive(t, promise.day, cfg.zoneOffset);
    assert promise.status.Pending? && r.actions[i].promise == Some(|s.promises|);
    assert !IsSuperseded(r.actions, i) by {
      assert forall j :: 0 <= j < i ==> r.actions[j].createdAt == s.actions[j].createdAt;
    }
  }

  /** A recovered lease may be claimed again at once, which costs exactly one more attempt. */
  lemma RecoveredLeaseRestartsAtOnce(s: Case, i: nat, cfg: Settings, now: int)
    requires HasAction(s, i) && LeaseExpired(s.actions[i], cfg, now)
    requires IsEligible(s, i) && s.actions[i].attempts < s.actions[i].maxAttempts
    ensures var a := s.actions[i];
            Claim(RecoverLease(s, i, cfg, now), i, now)
            == Put(s, i, a.(scheduledFor := now, claimedAt := Some(now), attempts := a.attempts + 1))
  {
    var r := RecoverLease(s, i, cfg, now);
    assert !IsSuperseded(r.actions, i) by {
      assert forall j :: 0 <= j < |s.actions| && j != i ==> r.actions[j] == s.actions[j];
    }
    var a := s.actions[i];
    assert Claim(r, i, now).actions
        == s.actions[i := a.(scheduledFor := now, claimedAt := Some(now), attempts := a.attempts + 1)];
  }
}
