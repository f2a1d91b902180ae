/** The live-action and promise invariants, kept by every step of every run. */
module LiveAction {
  import opened Rows
  import opened GuardrailEngine
  import opened PolicyDispatch
  import opened PromiseValidation
  import opened Runtime
  import opened Orchestrator
  import opened Protocol

  ghost predicate Ordered(s: Case) {
    && (forall i, j :: 0 <= i < j < |s.actions| ==> s.actions[i].createdAt < s.actions[j].createdAt)
    && (forall i :: 0 <= i < |s.actions| ==> s.actions[i].createdAt <= s.clock)
  }

  /** At most one action is SCHEDULED, and it is the newest. */
  ghost predicate OnlyNewestScheduled(s: Case) {
    forall i :: 0 <= i < |s.actions| - 1 ==> !s.actions[i].status.Scheduled?
  }

  predicate NewestIsLive(s: Case) { |s.actions| > 0 && IsLive(s.actions[|s.actions| - 1]) }

  /** What the case state says about the newest action. */
  ghost predicate StateMatchesNewest(s: Case) {
    && !s.state.Detected? && !s.state.Diagnosed? && !s.state.DecisionReady?
    && (s.state.Waiting? ==> NewestIsLive(s) && IsWait(s.actions[|s.actions| - 1].kind))
    && (s.state.ActionScheduled? ==> NewestIsLive(s) && IsContact(s.actions[|s.actions| - 1].kind))
    && (s.state.AwaitingOutcome? && HasPendingPromise(s.promises) ==>
        && NewestIsLive(s)
        && s.actions[|s.actions| - 1].kind.FollowUpPtp?
        && s.actions[|s.actions| - 1].promise == Some(|s.promises| - 1))
    && (IsTerminal(s.state) ==> forall i :: 0 <= i < |s.actions| ==> !s.actions[i].status.Scheduled?)
  }

  /** Only the newest promise can be pending, and never while the case waits, acts or is recovered. */
  ghost predicate PromisesInOrder(s: Case) {
    && (forall p :: 0 <= p < |s.promises| - 1 ==> !s.promises[p].status.Pending?)
    && (HasPendingPromise(s.promises) ==> !s.state.Waiting? && !s.state.ActionScheduled? && !s.state.Recovered?)
    && (forall i :: 0 <= i < |s.actions| && s.actions[i].kind.FollowUpPtp? ==>
          s.actions[i].promise.Some? && s.actions[i].promise.value < |s.promises|)
  }

  ghost predicate Core(s: Case) {
    Ordered(s) && OnlyNewestScheduled(s) && StateMatchesNewest(s) && PromisesInOrder(s)
  }

  lemma NewestIsNotSuperseded(s: Case)
    requires Ordered(s) && |s.actions| > 0
    ensures !IsSuperseded(s.actions, |s.actions| - 1)
  {
  }

  lemma OlderIsSuperseded(s: Case, i: nat)
    requires Ordered(s) && i < |s.actions| - 1
    requires IsBlocking(s.actions[|s.actions| - 1])
    ensures IsSuperseded(s.actions, i)
  {
    assert s.actions[|s.actions| - 1].createdAt > s.actions[i].createdAt;
  }

  /** While the case waits, acts or holds a pending promise, only its newest action can go forward. */
  lemma OnlyNewestGoesForward(s: Case, i: nat)
    requires Core(s) && i < |s.actions|
    requires s.state.Waiting? || s.state.ActionScheduled? || (s.state.AwaitingOutcome? && HasPendingPromise(s.promises))
    ensures IsSuperseded(s.actions, i) <==> i != |s.actions| - 1
  {
    if i == |s.actions| - 1 {
      NewestIsNotSuperseded(s);
    } else {
      OlderIsSuperseded(s, i);
    }
  }

  lemma PendingIsNewest(s: Case, p: nat)
    requires PromisesInOrder(s) && p < |s.promises| && s.promises[p].status.Pending?
    ensures p == |s.promises| - 1 && HasPendingPromise(s.promises)
  {
  }

  lemma RecordDecisionKeepsCore(s: Case, chosen: ActionType, cause: Cause, cfg: Settings, now: int, at: int)
    requires Ordered(s) && s.clock < at
    requires forall i :: 0 <= i < |s.actions| ==> !s.actions[i].status.Scheduled?
    requires PromisesInOrder(s) && !HasPendingPromise(s.promises)
    requires chosen != FollowUpPtp
    ensures Core(RecordDecision(s, chosen, cause, cfg, now, at).(clock := at))
  {
  }

  lemma DecideKeepsCore(s: Case, cause: Cause, seen: Seen, mode: Mode, cfg: Settings, now: int, at: int)
    requires Ordered(s) && s.clock < at && s.state.Diagnosed?
    requires forall i :: 0 <= i < |s.actions| ==> !s.actions[i].status.Scheduled?
    requires PromisesInOrder(s) && !HasPendingPromise(s.promises)
    ensures Core(Decide(s, cause, seen, mode, cfg, now, at).(clock := at))
  {
    var flushed := Seen(s.actions, s.failures);
    var view := ChoiceIsGuarded(mode, seen, flushed, SubjectOf(s), cfg, now);
    RecordDecisionKeepsCore(s, Choice(mode, seen, flushed, SubjectOf(s), cfg, now), cause, cfg, now, at);
  }

  /** A change of columns the invariants do not read. */
  lemma SameRowsKeepCore(s: Case, t: Case)
    requires Core(s) && s.clock <= t.clock
    requires t.state == s.state && t.actions == s.actions && t.promises == s.promises
    ensures Core(t)
  {
  }

  lemma DiagnosisIsReady(s: Case, category: Category, rebill: Option<Rebill>)
    requires Core(s) && !HasPendingPromise(s.promises)
    ensures var d := Diagnosis(s, category, rebill);
            && Ordered(d) && d.clock == s.clock && PromisesInOrder(d) && !HasPendingPromise(d.promises)
            && d.failures == s.failures + 1
            && forall i :: 0 <= i < |d.actions| ==> !d.actions[i].status.Scheduled?
  {
    var d := Diagnosis(s, category, rebill);
    assert d.promises == s.promises && d.actions == CancelScheduled(s.actions);
  }

  lemma FailureKeepsCore(
    s: Case, category: Category, rebill: Option<Rebill>, mode: Mode, cfg: Settings, now: int, at: int)
    requires Core(s) && s.clock < at
    ensures Core(HandleFailure(s, category, rebill, mode, cfg, now, at).(clock := at))
  {
    if (rebill.Some? && !IsOpenForRebill(s.state)) || !IsDiagnosable(s.state) || HasPendingPromise(s.promises) {
      SameRowsKeepCore(s, HandleFailure(s, category, rebill, mode, cfg, now, at).(clock := at));
    } else {
      DiagnosisIsReady(s, category, rebill);
      DecideKeepsCore(Diagnosis(s, category, rebill), ByFailure, Seen(s.actions, s.failures), mode, cfg, now, at);
    }
  }

  /** Recovery, dispute and review: cancel what is scheduled and leave the working states. */
  lemma ClosingKeepsCore(s: Case, promises: seq<Promise>, state: CaseState, at: int)
    requires Core(s) && s.clock < at
    requires state.HumanReview? || IsTerminal(state)
    requires |promises| == |s.promises|
    requires forall p :: 0 <= p < |promises| ==> promises[p].status.Pending? ==>
        s.promises[p].status.Pending? && !state.Recovered?
    ensures Core(s.(actions := CancelScheduled(s.actions), promises := promises, state := state, clock := at))
  {
  }

  lemma RecoveryKeepsCore(s: Case, at: int)
    requires Core(s) && s.clock < at
    ensures Core(HandleRecovery(s, at).(clock := at))
  {
    ClosingKeepsCore(s, ResolvePending(s.promises, Kept, at), Recovered, at);
    if s.state.Recovered? || s.state.Disputed? {
      SameRowsKeepCore(s, s.(clock := at));
    }
  }

  lemma ReplyKeepsCore(s: Case, e: Extraction, cfg: Settings, now: int, at: int)
    requires Core(s) && s.clock < at
    ensures Core(HandleReply(s, e, cfg, now, at).(clock := at))
  {
    var t := HandleReply(s, e, cfg, now, at).(clock := at);
    ClosingKeepsCore(s, s.promises, Disputed, at);
    ClosingKeepsCore(s, s.promises, HumanReview, at);
    SameRowsKeepCore(s, s.(clock := at));
    var v := ValidatePromise(e, s.amount, MerchantTime.UtcToLocal(now, cfg.zoneOffset));
    if IsReplyable(s.state) && e.intent.PromiseToPay? && v.Valid? {
      PromiseKeepsCore(s, v.amount, v.day, cfg, at);
    }
  }

  lemma PromiseKeepsCore(s: Case, amount: int, day: int, cfg: Settings, at: int)
    requires Core(s) && s.clock < at
    ensures Core(s.(actions := CancelScheduled(s.actions) + [FollowUpAction(|s.promises|, day, cfg, at)],
                    promises := ResolvePending(s.promises, Superseded, at) + [Promise(amount, day, Pending, None)],
                    state := AwaitingOutcome, clock := at))
  {
  }

  lemma InboundKeepsCore(s: Case, step: Step, cfg: Settings)
    requires Core(s) && IsEnabled(s, step) && IsInbound(step.event)
    ensures Core(Apply(s, step, cfg))
  {
    match step.event
    case FailureReported(category, rebill, mode, now) => FailureKeepsCore(s, category, rebill, mode, cfg, now, step.at);
    case PaymentCaptured => RecoveryKeepsCore(s, step.at);
    case LinkPaid(link) =>
      RecoveryKeepsCore(s, step.at);
      SameRowsKeepCore(s, s.(clock := step.at));
    case DisputeOpened => ClosingKeepsCore(s, s.promises, Disputed, step.at);
    case CustomerReplied(e, now) => ReplyKeepsCore(s, e, cfg, now, step.at);
  }

  // ---- Worker and reconciler steps ----

  /** One row is claimed or goes back to SCHEDULED, and the case state stays. */
  lemma LiveRowKeepsCore(s: Case, i: nat, b: Action, at: int)
    requires Core(s) && s.clock < at && HasAction(s, i)
    requires b.kind == s.actions[i].kind && b.createdAt == s.actions[i].createdAt && b.promise == s.actions[i].promise
    requires IsLive(b) && (b.status.Scheduled? ==> i == |s.actions| - 1 && !IsTerminal(s.state))
    ensures Core(Put(s, i, b).(clock := at))
  {
  }

  lemma ClaimKeepsCore(s: Case, i: nat, now: int, at: int)
    requires Core(s) && s.clock < at
    ensures Core(Claim(s, i, now).(clock := at))
  {
    if !HasAction(s, i) || !s.actions[i].status.Scheduled? || s.actions[i].scheduledFor > now {
      SameRowsKeepCore(s, s.(clock := at));
    } else if IsEligible(s, i) {
      var a := s.actions[i];
      LiveRowKeepsCore(s, i, a.(status := Executing, claimedAt := Some(now), attempts := a.attempts + 1), at);
    } else {
      NewestIsNotSuperseded(s);
      if s.state.AwaitingOutcome? && HasPendingPromise(s.promises) {
        NewestPromiseIsPending(s);
      }
      CancelKeepsCore(s, i, at);
    }
  }

  lemma NewestPromiseIsPending(s: Case)
    requires PromisesInOrder(s) && HasPendingPromise(s.promises)
    ensures |s.promises| > 0 && s.promises[|s.promises| - 1].status.Pending?
  {
  }

  lemma CancelKeepsCore(s: Case, i: nat, at: int)
    requires Core(s) && s.clock < at && HasAction(s, i)
    requires i < |s.actions| - 1 || s.state.HumanReview? || IsTerminal(s.state)
          || (s.state.AwaitingOutcome? && (!HasPendingPromise(s.promises) || !s.actions[i].kind.FollowUpPtp?))
    ensures Core(SetStatus(s, i, Cancelled).(clock := at))
  {
  }

  lemma FailToReviewKeepsCore(s: Case, i: nat, at: int)
    requires Core(s) && s.clock < at && HasAction(s, i)
    ensures Core(FailToReview(s, i).(clock := at))
  {
  }

  /** A claimed contact or link that may not finish is cancelled without disturbing the case. */
  lemma StaleContactCancels(s: Case, i: nat, at: int)
    requires Core(s) && s.clock < at && HasAction(s, i) && IsContact(s.actions[i].kind)
    requires !s.state.ActionScheduled? || IsSuperseded(s.actions, i)
    ensures Core(SetStatus(s, i, Cancelled).(clock := at))
  {
    if s.state.ActionScheduled? {
      OnlyNewestGoesForward(s, i);
    }
    if s.state.Waiting? && i == |s.actions| - 1 {
      assert false;
    }
    CancelKeepsCore(s, i, at);
  }

  lemma ExternalDoneKeepsCore(s: Case, i: nat, result: Option<string>, at: int)
    requires Core(s) && s.clock < at && HasAction(s, i) && IsContact(s.actions[i].kind)
    ensures Core(CompleteExternal(s, i, result).(clock := at))
  {
    if !IsExecuting(s, i) {
      SameRowsKeepCore(s, s.(clock := at));
    } else if !s.state.ActionScheduled? || IsSuperseded(s.actions, i) {
      StaleContactCancels(s, i, at);
    }
  }

  lemma RetryKeepsCore(s: Case, i: nat, cfg: Settings, now: int, at: int)
    requires Core(s) && s.clock < at && HasAction(s, i) && IsContact(s.actions[i].kind)
    ensures Core(RetryOrFail(s, i, cfg, now).(clock := at))
  {
    if !IsExecuting(s, i) {
      SameRowsKeepCore(s, s.(clock := at));
    } else if !s.state.ActionScheduled? || IsSuperseded(s.actions, i) {
      StaleContactCancels(s, i, at);
    } else {
      OnlyNewestGoesForward(s, i);
      FailToReviewKeepsCore(s, i, at);
      var a := s.actions[i];
      var delay := RetryDelay(cfg, a.attempts);
      LiveRowKeepsCore(s, i, a.(status := Scheduled, scheduledFor := now + delay * SECOND, claimedAt := None,
                                backoff := a.backoff + delay), at);
    }
  }

  lemma WaitDoneKeepsCore(s: Case, i: nat, mode: Mode, cfg: Settings, now: int, at: int)
    requires Core(s) && s.clock < at && HasAction(s, i) && IsWait(s.actions[i].kind)
    ensures Core(CompleteWait(s, i, mode, cfg, now, at).(clock := at))
  {
    if !IsExecuting(s, i) {
      SameRowsKeepCore(s, s.(clock := at));
    } else if !s.state.Waiting? || IsSuperseded(s.actions, i) {
      if s.state.Waiting? {
        OnlyNewestGoesForward(s, i);
      }
      CancelKeepsCore(s, i, at);
    } else {
      OnlyNewestGoesForward(s, i);
      var done := WaitedCase(s, i);
      DecideKeepsCore(done, ByWait, Seen(done.actions, done.failures), mode, cfg, now, at);
    }
  }

  lemma FollowupKeepsCore(s: Case, i: nat, at: int)
    requires Core(s) && s.clock < at && HasAction(s, i) && s.actions[i].kind.FollowUpPtp?
    requires i < |s.actions| - 1 || PromiseIsPending(s, s.actions[i]) || !HasPendingPromise(s.promises)
        || !s.state.AwaitingOutcome?
    ensures Core(CompleteFollowup(s, i, at).(clock := at))
  {
    if IsTerminal(s.state) || !PromiseIsPending(s, s.actions[i]) {
      assert PromiseIsPending(s, s.actions[i]) ==> HasPendingPromise(s.promises);
      DoneRowKeepsCore(s, i, at);
    } else {
      ResolvingKeepsCore(s.(state := HumanReview), SetPromise(s, s.actions[i].promise.value, Broken, at).promises);
      DoneRowKeepsCore(SetPromise(s, s.actions[i].promise.value, Broken, at).(state := HumanReview), i, at);
    }
  }

  /** Outside the working states, and wherever no promise hangs on it, a follow-up may simply finish. */
  lemma DoneRowKeepsCore(s: Case, i: nat, at: int)
    requires Core(s) && s.clock < at && HasAction(s, i) && s.actions[i].kind.FollowUpPtp?
    requires i < |s.actions| - 1 || !HasPendingPromise(s.promises) || !s.state.AwaitingOutcome?
    ensures Core(SetStatus(s, i, Executed).(clock := at))
  {
  }

  /** A promise may leave PENDING in any state that does not act on it. */
  lemma ResolvingKeepsCore(s: Case, promises: seq<Promise>)
    requires Core(s) && |promises| == |s.promises|
    requires forall p :: 0 <= p < |promises| ==> promises[p].status.Pending? ==> s.promises[p].status.Pending?
    ensures Core(s.(promises := promises))
  {
  }

  lemma PtpDoneKeepsCore(s: Case, i: nat, at: int)
    requires Core(s) && s.clock < at && HasAction(s, i) && s.actions[i].kind.FollowUpPtp?
    ensures Core(CompletePtp(s, i, at).(clock := at))
  {
    if !IsExecuting(s, i) {
      SameRowsKeepCore(s, s.(clock := at));
    } else {
      if s.state.AwaitingOutcome? && HasPendingPromise(s.promises) {
        NewestPromiseIsPending(s);
        OnlyNewestGoesForward(s, i);
      }
      if !s.state.AwaitingOutcome? || IsSuperseded(s.actions, i) {
        CancelKeepsCore(s, i, at);
      } else {
        FollowupKeepsCore(s, i, at);
      }
    }
  }

  lemma DueFollowupKeepsCore(s: Case, i: nat, now: int, at: int)
    requires Core(s) && s.clock < at
    ensures Core(RunDueFollowup(s, i, now, at).(clock := at))
  {
    if RunDueFollowup(s, i, now, at) == s {
      SameRowsKeepCore(s, s.(clock := at));
    } else {
      if HasPendingPromise(s.promises) {
        NewestPromiseIsPending(s);
      }
      FollowupKeepsCore(s, i, at);
    }
  }

  lemma LeaseKeepsCore(s: Case, i: nat, cfg: Settings, now: int, at: int)
    requires Core(s) && s.clock < at
    ensures Core(RecoverLease(s, i, cfg, now).(clock := at))
  {
    if !HasAction(s, i) || !LeaseExpired(s.actions[i], cfg, now) {
      SameRowsKeepCore(s, s.(clock := at));
    } else {
      if s.state.Waiting? || s.state.ActionScheduled? || (s.state.AwaitingOutcome? && HasPendingPromise(s.promises)) {
        OnlyNewestGoesForward(s, i);
      }
      if s.state.AwaitingOutcome? && HasPendingPromise(s.promises) {
        NewestPromiseIsPending(s);
      }
      if !IsEligible(s, i) {
        CancelKeepsCore(s, i, at);
      } else {
        FailToReviewKeepsCore(s, i, at);
        if PromiseIsPending(s, s.actions[i]) {
          PendingIsNewest(s, s.actions[i].promise.value);
        }
        LiveRowKeepsCore(s, i, s.actions[i].(status := Scheduled, scheduledFor := now, claimedAt := None), at);
      }
    }
  }

  lemma WorkerKeepsCore(s: Case, step: Step, cfg: Settings)
    requires Core(s) && IsEnabled(s, step) && !IsInbound(step.event)
    ensures Core(Apply(s, step, cfg))
  {
    match step.event
    case ClaimDue(i, now) => ClaimKeepsCore(s, i, now, step.at);
    case WaitDone(i, mode, now) => WaitDoneKeepsCore(s, i, mode, cfg, now, step.at);
    case PtpDone(i) => PtpDoneKeepsCore(s, i, step.at);
    case DueFollowupRun(i, now) => DueFollowupKeepsCore(s, i, now, step.at);
    case ExternalDone(i, result) => ExternalDoneKeepsCore(s, i, result, step.at);
    case ExternalRetry(i, now) => RetryKeepsCore(s, i, cfg, now, step.at);
    case LinkMismatch(i) =>
      SameRowsKeepCore(s, s.(clock := step.at));
      FailToReviewKeepsCore(s, i, step.at);
    case StaleCancel(i) =>
      SameRowsKeepCore(s, s.(clock := step.at));
      CancelKeepsCore(s, i, step.at);
    case LeaseSwept(i, now) => LeaseKeepsCore(s, i, cfg, now, step.at);
  }

  // ---- Every step, every run ----

  lemma StepKeepsCore(s: Case, step: Step, cfg: Settings)
    requires Core(s) && IsEnabled(s, step)
    ensures Core(Apply(s, step, cfg))
  {
    if IsInbound(step.event) {
      InboundKeepsCore(s, step, cfg);
    } else {
      WorkerKeepsCore(s, step, cfg);
    }
  }

  lemma OpenedCaseIsCore(o: Opening, cfg: Settings)
    ensures Core(Opened(o, cfg))
  {
    var start := Case(Diagnosed, if o.amount.Some? then o.amount.value else 0, o.currency, o.category, None,
                      o.subscriptionLinked, [], [], 1, [], [], o.at);
    DecideKeepsCore(start.(clock := o.at - 1), ByFailure, Seen([], 0), o.mode, cfg, o.now, o.at);
  }
}
