/** What the single transactions on a case mean for their callers, and what all of them keep. */
module TransactionMeaning {
  import opened Rows
  import opened GuardrailEngine
  import opened PolicyDispatch
  import opened MerchantTime
  import opened PromiseValidation
  import opened Runtime
  import opened Orchestrator
  import opened Protocol
  import opened LiveAction
  import opened History
  import ContactCap
  import opened AttemptBudget
  import opened Latch
  import opened PromiseLedger
  import opened EffectLedger
  import opened CaseColumns
  import opened Timing
  import opened Runs

  datatype Outcome = Stale | Done | RetryScheduled | Failure | PromiseBroken | AlreadyRecovered

  // ---- Follow-up passes ----

  predicate IsDueFollowup(a: Action, now: int) {
    a.kind.FollowUpPtp? && a.status.Scheduled? && a.scheduledFor <= now
  }

  function DueFollowups(actions: seq<Action>, n: nat, now: int): set<nat>
    requires n <= |actions|
  {
    set i: nat | i < n && IsDueFollowup(actions[i], now)
  }

  lemma DueFollowupsNext(actions: seq<Action>, i: nat, now: int)
    requires i < |actions|
    ensures |DueFollowups(actions, i + 1, now)|
         == |DueFollowups(actions, i, now)| + if IsDueFollowup(actions[i], now) then 1 else 0
  {
    if IsDueFollowup(actions[i], now) {
      assert DueFollowups(actions, i + 1, now) == DueFollowups(actions, i, now) + {i};
    } else {
      assert DueFollowups(actions, i + 1, now) == DueFollowups(actions, i, now);
    }
  }

  /** One pass over the first `n` actions. */
  function RunDueFollowups(s: Case, n: nat, now: int, at: int): Case {
    if n == 0 then s else RunDueFollowup(RunDueFollowups(s, n - 1, now, at), n - 1, now, at)
  }

  predicate BreaksAt(s: Case, i: nat, now: int) {
    && HasAction(s, i) && IsDueFollowup(s.actions[i], now)
    && !IsTerminal(s.state) && PromiseIsPending(s, s.actions[i])
  }

  /** How many promises the first `n` turns of a pass break. */
  function BrokenByPass(s: Case, n: nat, now: int, at: int): nat {
    if n == 0 then 0
    else BrokenByPass(s, n - 1, now, at) + if BreaksAt(RunDueFollowups(s, n - 1, now, at), n - 1, now) then 1 else 0
  }

  /** The pass has gone from `s` to `t` in `n` turns. */
  ghost predicate Passed(s: Case, t: Case, n: nat, now: int, at: int, processed: nat, broken: nat) {
    && n <= |s.actions| == |t.actions| && t == RunDueFollowups(s, n, now, at)
    && (forall j :: n <= j < |s.actions| ==> t.actions[j] == s.actions[j])
    && processed == |DueFollowups(s.actions, n, now)| && broken == BrokenByPass(s, n, now, at)
  }

  lemma PassNext(s: Case, t: Case, n: nat, now: int, at: int, processed: nat, broken: nat)
    requires Passed(s, t, n, now, at, processed, broken) && n < |s.actions|
    ensures Passed(s, RunDueFollowup(t, n, now, at), n + 1, now, at,
                   processed + if IsDueFollowup(t.actions[n], now) then 1 else 0,
                   broken + if BreaksAt(t, n, now) then 1 else 0)
  {
    DueFollowupsNext(s.actions, n, now);
  }

  lemma {:induction false} OlderFollowupsAreNotDue(s: Case, n: nat, now: int, at: int)
    requires OnlyNewestScheduled(s) && n < |s.actions|
    ensures RunDueFollowups(s, n, now, at) == s && DueFollowups(s.actions, n, now) == {}
    ensures BrokenByPass(s, n, now, at) == 0
  {
    if n > 0 {
      OlderFollowupsAreNotDue(s, n - 1, now, at);
    }
  }

  function LastAction(s: Case): nat { if s.actions == [] then 0 else |s.actions| - 1 }

  /** A whole pass over one case is one protocol step, as only its newest action can be due. */
  lemma PassIsOneStep(s: Case, now: int, at: int, cfg: Settings)
    requires OnlyNewestScheduled(s)
    ensures RunDueFollowups(s, |s.actions|, now, at).(clock := at)
         == Apply(s, Step(DueFollowupRun(LastAction(s), now), at), cfg)
    ensures |DueFollowups(s.actions, |s.actions|, now)| <= 1
  {
    if s.actions != [] {
      OlderFollowupsAreNotDue(s, |s.actions| - 1, now, at);
      DueFollowupsNext(s.actions, |s.actions| - 1, now);
    }
  }

  // ---- What every transaction keeps ----

  /** Final rows and resolved promises stay as they are, and a latched case stays latched, without new outreach. */
  ghost predicate Respects(s: Case, t: Case) {
    RunKeepsHistory(s, t) && (IsLatched(s) ==> KeepsLatch(s, t))
  }

  /** One enabled step of the protocol, with what the run theorems promise of it. */
  ghost predicate Transacts(s: Case, step: Step, t: Case, cfg: Settings) {
    IsEnabled(s, step) && t == Apply(s, step, cfg) && Respects(s, t)
  }

  /** The step is such a transaction, and ends in a reachable case again. */
  ghost predicate Commits(s: Case, step: Step, cfg: Settings)
    requires IsRouted(s, step.event)
  {
    Reachable(Apply(s, step, cfg), cfg) && Transacts(s, step, Apply(s, step, cfg), cfg)
  }

  lemma StepKeepsRows(s: Case, step: Step, cfg: Settings)
    requires Core(s) && IsEnabled(s, step)
    ensures RunKeepsHistory(s, Apply(s, step, cfg))
  {
    StepEvolvesRows(s, step, cfg);
    StepEvolvesPromises(s, step, cfg);
  }

  lemma TransactionEnds(s: Case, step: Step, cfg: Settings)
    requires Reachable(s, cfg) && IsEnabled(s, step) && cfg.maxAttempts >= 1
    ensures Commits(s, step, cfg)
  {
    ReachableNext(s, step, cfg);
    ReachableCasesAreCore(s, cfg);
    StepKeepsRows(s, step, cfg);
    if IsLatched(s) {
      StepKeepsLatch(s, step, cfg);
    }
  }

  // ---- Ends of a transaction, row by row ----

  predicate Unchanged(s: Case, t: Case) { t == s.(clock := t.clock) }

  /** What was SCHEDULED is CANCELLED, every other row is as it was. */
  predicate CancelsScheduled(old': seq<Action>, new': seq<Action>) {
    && |old'| <= |new'|
    && forall i :: 0 <= i < |old'| ==>
         new'[i] == if old'[i].status.Scheduled? then old'[i].(status := Cancelled) else old'[i]
  }

  /** What was PENDING is resolved to `to` at `at`, every other promise is as it was. */
  predicate ResolvesPending(old': seq<Promise>, new': seq<Promise>, to: PromiseStatus, at: int) {
    && |old'| <= |new'|
    && forall p :: 0 <= p < |old'| ==>
         new'[p] == if old'[p].status.Pending? then old'[p].(status := to, resolvedAt := Some(at)) else old'[p]
  }

  /** The case is recovered: nothing left to do, every open promise KEPT, and nothing else touched. */
  predicate RecoversCase(s: Case, t: Case) {
    && |t.actions| == |s.actions| && CancelsScheduled(s.actions, t.actions)
    && |t.promises| == |s.promises| && ResolvesPending(s.promises, t.promises, Kept, t.clock)
    && t == s.(state := Recovered, actions := t.actions, promises := t.promises, clock := t.clock)
  }

  /** The newest row and decision are for `kind`, and the case is in the state that goes with it. */
  predicate ShowsDecision(t: Case, kind: ActionType, cause: Cause, now: int, cfg: Settings) {
    var rest := match kind
      case Wait => cfg.waitDelay * SECOND
      case WaitForNativeRetry => cfg.nativeRetryDelay * SECOND
      case _ => 0;
    && |t.actions| > 0 && |t.decisions| > 0
    && t.decisions[|t.decisions| - 1] == Decision(kind, cause)
    && t.actions[|t.actions| - 1] == Action(kind, if kind.Escalate? || kind.Stop? then Executed else Scheduled,
                                            t.clock, now + rest, None, 0, cfg.maxAttempts, None, None, 0)
    && t.state == match kind
       case Wait => Waiting
       case WaitForNativeRetry => Waiting
       case CreatePaymentLink => ActionScheduled
       case ContactCustomer => ActionScheduled
       case CollectPromiseToPay => ActionScheduled
       case Escalate => HumanReview
       case Stop => Stopped
       case FollowUpPtp => ActionScheduled
  }

  lemma RecordShowsDecision(s: Case, chosen: ActionType, cause: Cause, cfg: Settings, now: int, at: int)
    ensures ShowsDecision(RecordDecision(s, chosen, cause, cfg, now, at).(clock := at), chosen, cause, now, cfg)
  {
  }

  /** Only row `i` changes, to CANCELLED. */
  predicate OnlyCancels(s: Case, t: Case, i: nat)
    requires HasAction(s, i)
  {
    t == s.(actions := s.actions[i := s.actions[i].(status := Cancelled)], clock := t.clock)
  }

  predicate FailsToReview(s: Case, t: Case, i: nat)
    requires HasAction(s, i)
  {
    t == s.(actions := s.actions[i := s.actions[i].(status := Failed)], state := HumanReview, clock := t.clock)
  }

  /** The action is EXECUTED with exactly this result, its effect is logged, and a link is stored on the case. */
  predicate SucceedsWith(s: Case, t: Case, i: nat, result: Option<string>)
    requires HasAction(s, i)
  {
    t == s.(actions := s.actions[i := s.actions[i].(status := Executed, link := result)],
            effects := s.effects + [i], state := AwaitingOutcome,
            link := if s.actions[i].kind.CreatePaymentLink? then result else s.link, clock := t.clock)
  }

  /** The action waits for another attempt after the doubled delay, or has none left and goes to review. */
  predicate RetriesOrFails(s: Case, t: Case, i: nat, now: int, outcome: Outcome, cfg: Settings)
    requires HasAction(s, i)
  {
    var a := s.actions[i];
    if a.attempts < cfg.maxAttempts then
      var delay := cfg.retryDelay * Pow2(if a.attempts == 0 then 0 else a.attempts - 1);
      && outcome.RetryScheduled?
      && t == s.(actions := s.actions[i := a.(status := Scheduled, scheduledFor := now + delay * SECOND,
                                              claimedAt := None, backoff := a.backoff + delay)],
                 clock := t.clock)
    else outcome.Failure? && FailsToReview(s, t, i)
  }

  /** The wait is EXECUTED and one decision follows, which sees it EXECUTED. */
  predicate WaitBringsDecision(s: Case, t: Case, i: nat, mode: Mode, now: int, cfg: Settings)
    requires HasAction(s, i)
  {
    var n, seen := |s.decisions|, Seen(s.actions[i := s.actions[i].(status := Executed)], s.failures);
    && |t.actions| == |s.actions| + 1
    && t.actions[..|s.actions|] == seen.rows
    && |t.decisions| == n + 1 && t.decisions[..n] == s.decisions
    && ShowsDecision(t, t.decisions[n].chosen, ByWait, now, cfg)
    && t.decisions[n].chosen == Choice(mode, seen, seen, SubjectOf(s), cfg, now)
    && t == s.(actions := t.actions, decisions := t.decisions, state := t.state, clock := t.clock)
  }

  /** The promise of the follow-up is BROKEN now, the follow-up EXECUTED, and the case in review. */
  predicate BreaksPromise(s: Case, t: Case, i: nat)
    requires HasAction(s, i) && PromiseIsPending(s, s.actions[i])
  {
    var p := s.actions[i].promise.value;
    t == s.(promises := s.promises[p := s.promises[p].(status := Broken, resolvedAt := Some(t.clock))],
            actions := s.actions[i := s.actions[i].(status := Executed)], state := HumanReview, clock := t.clock)
  }

  predicate OnlyExecutes(s: Case, t: Case, i: nat)
    requires HasAction(s, i)
  {
    t == s.(actions := s.actions[i := s.actions[i].(status := Executed)], clock := t.clock)
  }

  /** The claim still stands: EXECUTING, the newest action, and in the state that awaits it. */
  predicate Stands(s: Case, i: nat) {
    IsExecuting(s, i) && i == |s.actions| - 1 && Awaits(s, s.actions[i])
  }

  /** In the working states exactly a standing claim may finish. */
  lemma StandingIsEligible(s: Case, i: nat)
    requires Core(s) && IsExecuting(s, i)
    ensures Stands(s, i) <==> IsEligible(s, i)
    ensures Awaits(s, s.actions[i]) ==> (IsSuperseded(s.actions, i) <==> i != |s.actions| - 1)
  {
    if Awaits(s, s.actions[i]) {
      if s.actions[i].kind.FollowUpPtp? {
        PendingIsNewest(s, s.actions[i].promise.value);
      }
      OnlyNewestGoesForward(s, i);
    }
  }

  // ---- What the single transactions mean ----

  /** Nothing is scheduled and no promise is open. */
  predicate IsSettled(t: Case) {
    && (forall i :: 0 <= i < |t.actions| ==> !t.actions[i].status.Scheduled?)
    && forall p :: 0 <= p < |t.promises| ==> !t.promises[p].status.Pending?
  }

  /** A capture recovers every case that is neither recovered nor disputed, and changes no other. */
  predicate CaptureMeans(s: Case, t: Case) {
    && (if s.state.Recovered? || s.state.Disputed? then Unchanged(s, t) else RecoversCase(s, t))
    && (!s.state.Disputed? ==> t.state.Recovered? && IsSettled(t))
  }

  lemma CaptureEnds(s: Case, at: int, cfg: Settings)
    requires Core(s)
    ensures CaptureMeans(s, Apply(s, Step(PaymentCaptured, at), cfg))
  {
  }

  /** The paid link recovers the case exactly if it is the link of the newest executed link action. */
  predicate LinkPaidMeans(s: Case, t: Case, paid: string) {
    if LatestLink(s.actions) != Some(paid) || s.state.Recovered? || s.state.Disputed? then Unchanged(s, t)
    else RecoversCase(s, t)
  }

  lemma LinkPaidEnds(s: Case, paid: string, at: int, cfg: Settings)
    requires LinkColumnIsLatest(s)
    ensures LinkPaidMeans(s, Apply(s, Step(LinkPaid(paid), at), cfg), paid)
  {
  }

  /** A dispute closes any case, cancels what is scheduled, and leaves the promises as they are. */
  predicate DisputeMeans(s: Case, t: Case) {
    && |t.actions| == |s.actions| && CancelsScheduled(s.actions, t.actions)
    && t == s.(state := Disputed, actions := t.actions, clock := t.clock)
  }

  /** The amount and currency of a failure matched by subscription, as far as it brings them. */
  predicate TakesRebill(s: Case, t: Case, rebill: Option<Rebill>) {
    && t.amount == (if rebill.Some? && rebill.value.amount.Some? then rebill.value.amount.value else s.amount)
    && t.currency == (if rebill.Some? && rebill.value.currency.Some? && rebill.value.currency.value != ""
                      then rebill.value.currency.value else s.currency)
  }

  /**
    A failure that reaches the case is counted and rebills it. If the case is latched nothing else
    happens, but for the new category beside an open promise. Otherwise what is scheduled is
    cancelled and exactly one decision follows, from the rows and the count before this failure and
    the amount and category after it. Past the last permitted failure it is STOP, in every mode, and
    in baseline mode only then.
   */
  predicate FailureMeans(s: Case, t: Case, category: Category, rebill: Option<Rebill>, mode: Mode, now: int,
      cfg: Settings)
  {
    if rebill.Some? && (s.state.HumanReview? || IsTerminal(s.state)) then Unchanged(s, t)
    else
      && TakesRebill(s, t, rebill) && t.failures == s.failures + 1
      && t.promises == s.promises && t.link == s.link && t.effects == s.effects
      && t.subscriptionLinked == s.subscriptionLinked
      && if IsLatched(s) then
           && t.state == s.state && t.actions == s.actions && t.decisions == s.decisions
           && t.category == if s.state.AwaitingOutcome? then category else s.category
         else
           var n := |s.decisions|;
           && t.category == category
           && |t.actions| == |s.actions| + 1 && CancelsScheduled(s.actions, t.actions)
           && |t.decisions| == n + 1 && t.decisions[..n] == s.decisions
           && ShowsDecision(t, t.decisions[n].chosen, ByFailure, now, cfg)
           && t.decisions[n].chosen == Choice(mode, Seen(s.actions, s.failures),
                Seen(t.actions[..|s.actions|], t.failures), Subject(t.amount, category, s.subscriptionLinked), cfg, now)
           && (s.failures > cfg.guardrails.maxTotalAttempts ==> t.decisions[n].chosen == Stop)
           && (mode.Baseline? && t.decisions[n].chosen == Stop ==> s.failures > cfg.guardrails.maxTotalAttempts)
  }

  lemma RediagnosisShows(s: Case, category: Category, rebill: Option<Rebill>, mode: Mode, cfg: Settings, now: int,
      at: int)
    requires Core(s) && !IsLatched(s)
    ensures FailureMeans(s, HandleFailure(s, category, rebill, mode, cfg, now, at).(clock := at), category, rebill,
        mode, now, cfg)
  {
    assert !HasPendingPromise(s.promises);
    var d := Diagnosis(s, category, rebill);
    var seen, flushed := Seen(s.actions, s.failures), Seen(d.actions, d.failures);
    var view := ChoiceIsGuarded(mode, seen, flushed, SubjectOf(d), cfg, now);
    var chosen := Choice(mode, seen, flushed, SubjectOf(d), cfg, now);
    if mode.Baseline? {
      BaselineChoiceIsFirstAllowed(seen, d.amount, category, cfg.guardrails, now);
    }
    RecordShowsDecision(d, chosen, ByFailure, cfg, now, at);
  }

  lemma FailureEnds(s: Case, category: Category, rebill: Option<Rebill>, mode: Mode, now: int, at: int, cfg: Settings)
    requires Core(s)
    ensures FailureMeans(s, Apply(s, Step(FailureReported(category, rebill, mode, now), at), cfg), category, rebill,
        mode, now, cfg)
  {
    if !IsLatched(s) {
      RediagnosisShows(s, category, rebill, mode, cfg, now, at);
    }
  }

  /**
    The stopping rule: a failure that reaches a case still being worked on stops it in every mode
    once the failures before it exceed the budget, and the baseline stops it only then. The case
    is STOPPED exactly if the decision is STOP.
   */
  lemma FailureStopsExactly(
    s: Case, category: Category, rebill: Option<Rebill>, mode: Mode, now: int, at: int, cfg: Settings)
    requires Core(s) && !IsLatched(s)
    ensures var t := Apply(s, Step(FailureReported(category, rebill, mode, now), at), cfg);
            && |t.decisions| == |s.decisions| + 1
            && (t.state.Stopped? <==> t.decisions[|s.decisions|].chosen == Stop)
            && (s.failures > cfg.guardrails.maxTotalAttempts ==> t.state.Stopped?)
            && (mode.Baseline? ==> (t.state.Stopped? <==> s.failures > cfg.guardrails.maxTotalAttempts))
  {
    FailureEnds(s, category, rebill, mode, now, at, cfg);
  }

  /** One new open promise, for the amount and the day the customer named. */
  predicate RecordsPromise(s: Case, t: Case, e: Extraction) {
    var amount, date := OneOf(e.promisedAmount, e.amount), OneOf(e.promisedDate, e.date);
    && amount.Some? && date.Some? && date.value.IsoDay?
    && |t.promises| == |s.promises| + 1
    && t.promises[|s.promises|] == Promise(amount.value, date.value.day, Pending, None)
  }

  /** One new follow-up for that promise, due at the instant its local day is over. */
  ghost predicate SchedulesFollowUp(s: Case, t: Case, day: int, cfg: Settings) {
    && |t.actions| == |s.actions| + 1
    && var a := t.actions[|s.actions|];
       && a == Action(FollowUpPtp, Scheduled, t.clock, a.scheduledFor, None, 0, cfg.maxAttempts,
                      Some(|s.promises|), None, 0)
       && forall instant: int ::
            instant < a.scheduledFor <==> DayOf(UtcToLocal(instant, cfg.zoneOffset)) <= day
  }

  /**
    A terminal case takes no reply. A dispute or a claim to have paid disputes the case. A promise
    that validates supersedes the open one and is recorded as named, with its own follow-up. Every
    other reply goes to review. Nothing is ever decided or recovered.
   */
  ghost predicate ReplyMeans(s: Case, t: Case, e: Extraction, now: int, cfg: Settings) {
    && t == s.(actions := t.actions, promises := t.promises, state := t.state, clock := t.clock)
    && if IsTerminal(s.state) then Unchanged(s, t)
       else if e.intent.DisputeIntent? || e.intent.PaymentClaim? then DisputeMeans(s, t)
       else if ValidatePromise(e, s.amount, UtcToLocal(now, cfg.zoneOffset)).Valid? then
         && t.state.AwaitingOutcome?
         && CancelsScheduled(s.actions, t.actions) && ResolvesPending(s.promises, t.promises, Superseded, t.clock)
         && RecordsPromise(s, t, e) && SchedulesFollowUp(s, t, t.promises[|s.promises|].day, cfg)
       else
         && t.state.HumanReview? && t.promises == s.promises
         && |t.actions| == |s.actions| && CancelsScheduled(s.actions, t.actions)
  }

  lemma PromiseIsRecorded(s: Case, e: Extraction, now: int, at: int, cfg: Settings)
    requires Core(s) && !IsTerminal(s.state)
    requires ValidatePromise(e, s.amount, UtcToLocal(now, cfg.zoneOffset)).Valid?
    ensures ReplyMeans(s, Apply(s, Step(CustomerReplied(e, now), at), cfg), e, now, cfg)
  {
    var t := Apply(s, Step(CustomerReplied(e, now), at), cfg);
    AcceptedExactly(e, s.amount, now, cfg.zoneOffset);
    var day := t.promises[|s.promises|].day;
    forall instant: int
      ensures instant < t.actions[|s.actions|].scheduledFor <==> DayOf(UtcToLocal(instant, cfg.zoneOffset)) <= day
    {
      EndOfDayIsExclusive(instant, day, cfg.zoneOffset);
    }
  }

  lemma ReplyEnds(s: Case, e: Extraction, now: int, at: int, cfg: Settings)
    requires Core(s)
    ensures ReplyMeans(s, Apply(s, Step(CustomerReplied(e, now), at), cfg), e, now, cfg)
  {
    if !IsTerminal(s.state) && ValidatePromise(e, s.amount, UtcToLocal(now, cfg.zoneOffset)).Valid? {
      PromiseIsRecorded(s, e, now, at, cfg);
    }
  }

  /** The case once a worker has taken the claim on row `i`: one attempt more, nothing else. */
  function Started(s: Case, i: nat, now: int, at: int): Case
    requires HasAction(s, i)
  {
    var a := s.actions[i];
    s.(actions := s.actions[i := a.(status := Executing, claimedAt := Some(now), attempts := a.attempts + 1)],
        clock := at)
  }

  /** A claim succeeds exactly on a due action the case awaits; what is due and not awaited is cancelled. */
  predicate ClaimMeans(s: Case, t: Case, i: nat, now: int, claimed: bool) {
    var due := HasAction(s, i) && s.actions[i].status.Scheduled? && s.actions[i].scheduledFor <= now;
    && (claimed <==> due && Awaits(s, s.actions[i]))
    && (claimed ==> i == |s.actions| - 1 && t == Started(s, i, now, t.clock))
    && (!claimed ==> if due then OnlyCancels(s, t, i) else Unchanged(s, t))
  }

  lemma ClaimHolds(s: Case, i: nat, now: int, at: int, claimed: bool, cfg: Settings)
    requires Core(s)
    requires claimed <==> && i < |s.actions| && s.actions[i].status.Scheduled?
                          && Claim(s, i, now).actions[i].status.Executing?
    ensures ClaimMeans(s, Apply(s, Step(ClaimDue(i, now), at), cfg), i, now, claimed)
  {
    if HasAction(s, i) && s.actions[i].status.Scheduled? {
      NewestIsNotSuperseded(s);
    }
  }

  lemma ClaimEnds(s: Case, i: nat, now: int, at: int, claimed: bool, cfg: Settings)
    requires s.clock < at && now <= at
    requires Reachable(s, cfg) && cfg.maxAttempts >= 1
    requires claimed <==> && i < |s.actions| && s.actions[i].status.Scheduled?
                          && Claim(s, i, now).actions[i].status.Executing?
    ensures Commits(s, Step(ClaimDue(i, now), at), cfg)
    ensures ClaimMeans(s, Apply(s, Step(ClaimDue(i, now), at), cfg), i, now, claimed)
    ensures claimed ==> s.actions[i].attempts < cfg.maxAttempts
  {
    ReachableBudgetIsKept(s, cfg);
    TransactionEnds(s, Step(ClaimDue(i, now), at), cfg);
    ClaimHolds(s, i, now, at, claimed, cfg);
    assert claimed ==> WithinBudget(s.actions[i], cfg);
  }

  /** A standing wait is the first of its kind to finish and brings one decision; a stale one is cancelled. */
  predicate WaitMeans(s: Case, t: Case, i: nat, mode: Mode, now: int, outcome: Outcome, cfg: Settings)
    requires HasAction(s, i)
  {
    if Stands(s, i) then
      outcome.Done? && !WaitCompleted(s.actions, s.actions[i].kind) && WaitBringsDecision(s, t, i, mode, now, cfg)
    else outcome.Stale? && if IsExecuting(s, i) then OnlyCancels(s, t, i) else Unchanged(s, t)
  }

  lemma DoneWaitIsFirst(s: Case, i: nat)
    requires Core(s) && ContactCap.WaitsOnce(s.actions) && IsExecuting(s, i) && IsWait(s.actions[i].kind)
    requires s.state.Waiting? && !IsSuperseded(s.actions, i)
    ensures i == |s.actions| - 1 && !WaitCompleted(s.actions, s.actions[i].kind)
  {
    OnlyNewestGoesForward(s, i);
    if WaitCompleted(s.actions, s.actions[i].kind) {
      var j :| 0 <= j < |s.actions| && s.actions[j].kind == s.actions[i].kind && s.actions[j].status.Executed?;
      assert ContactCap.IsCounted(s.actions, j) && ContactCap.IsCounted(s.actions, i);
      assert false;
    }
  }

  lemma WaitHolds(s: Case, i: nat, mode: Mode, now: int, at: int, outcome: Outcome, cfg: Settings)
    requires Core(s) && ContactCap.WaitsOnce(s.actions) && HasAction(s, i) && IsWait(s.actions[i].kind)
    requires outcome.Done? <==> IsExecuting(s, i) && s.state.Waiting? && !IsSuperseded(s.actions, i)
    requires outcome.Done? || outcome.Stale?
    ensures WaitMeans(s, CompleteWait(s, i, mode, cfg, now, at).(clock := at), i, mode, now, outcome, cfg)
  {
    if IsExecuting(s, i) {
      StandingIsEligible(s, i);
    }
    if outcome.Done? {
      DoneWaitIsFirst(s, i);
      var w := WaitedCase(s, i);
      var seen := Seen(w.actions, w.failures);
      var chosen := Choice(mode, seen, seen, SubjectOf(w), cfg, now);
      RecordShowsDecision(w, chosen, ByWait, cfg, now, at);
    }
  }

  lemma WaitEnds(s: Case, i: nat, mode: Mode, now: int, at: int, outcome: Outcome, cfg: Settings)
    requires Reachable(s, cfg) && cfg.maxAttempts >= 1 && IsEnabled(s, Step(WaitDone(i, mode, now), at))
    requires outcome.Done? <==> IsExecuting(s, i) && s.state.Waiting? && !IsSuperseded(s.actions, i)
    requires outcome.Done? || outcome.Stale?
    ensures Commits(s, Step(WaitDone(i, mode, now), at), cfg)
    ensures WaitMeans(s, Apply(s, Step(WaitDone(i, mode, now), at), cfg), i, mode, now, outcome, cfg)
  {
    ReachableWaitsAreOnce(s, cfg);
    TransactionEnds(s, Step(WaitDone(i, mode, now), at), cfg);
    WaitHolds(s, i, mode, now, at, outcome, cfg);
  }

  /**
    A standing follow-up breaks its promise, whose day is then over. One whose promise is resolved,
    with nothing newer on an awaiting case, just finishes; every other claimed one is cancelled.
   */
  predicate PtpMeans(s: Case, t: Case, i: nat, outcome: Outcome, cfg: Settings)
    requires HasAction(s, i)
  {
    if Stands(s, i) && s.actions[i].kind.FollowUpPtp? then
      && outcome.PromiseBroken? && BreaksPromise(s, t, i)
      && Due(s.promises[s.actions[i].promise.value], cfg) <= t.clock
    else if IsExecuting(s, i) then
      if s.state.AwaitingOutcome? && !IsSuperseded(s.actions, i) then outcome.AlreadyRecovered? && OnlyExecutes(s, t, i)
      else outcome.Stale? && OnlyCancels(s, t, i)
    else outcome.Stale? && Unchanged(s, t)
  }

  /** What the follow-up handler reports. */
  predicate IsPtpOutcome(s: Case, i: nat, outcome: Outcome)
    requires HasAction(s, i)
  {
    var goes := IsExecuting(s, i) && s.state.AwaitingOutcome? && !IsSuperseded(s.actions, i);
    outcome == if !goes then Stale else if PromiseIsPending(s, s.actions[i]) then PromiseBroken else AlreadyRecovered
  }

  lemma PtpHolds(s: Case, i: nat, at: int, outcome: Outcome, cfg: Settings)
    requires Core(s) && NeverBrokenEarly(s, cfg) && IsEnabled(s, Step(PtpDone(i), at))
    requires IsPtpOutcome(s, i, outcome)
    ensures PtpMeans(s, CompletePtp(s, i, at).(clock := at), i, outcome, cfg)
  {
    if IsExecuting(s, i) {
      StandingIsEligible(s, i);
      assert FollowUpOnTime(s, s.actions[i], cfg);
    }
  }

  lemma PtpEnds(s: Case, i: nat, at: int, outcome: Outcome, cfg: Settings)
    requires Reachable(s, cfg) && cfg.maxAttempts >= 1 && IsEnabled(s, Step(PtpDone(i), at))
    requires IsPtpOutcome(s, i, outcome)
    ensures Commits(s, Step(PtpDone(i), at), cfg)
    ensures PtpMeans(s, Apply(s, Step(PtpDone(i), at), cfg), i, outcome, cfg)
  {
    ReachablePromisesAreOnTime(s, cfg);
    TransactionEnds(s, Step(PtpDone(i), at), cfg);
    PtpHolds(s, i, at, outcome, cfg);
  }

  /** A pass finishes the newest action if it is a due follow-up, and changes nothing else. */
  predicate PassMeans(s: Case, t: Case, now: int, processed: nat, broken: nat) {
    var i := LastAction(s);
    if !HasAction(s, i) || !IsDueFollowup(s.actions[i], now) then processed == 0 && broken == 0 && Unchanged(s, t)
    else if PromiseIsPending(s, s.actions[i]) && !IsTerminal(s.state) then
      processed == 1 && broken == 1 && BreaksPromise(s, t, i)
    else processed == 1 && broken == 0 && OnlyExecutes(s, t, i)
  }

  lemma PassHolds(s: Case, now: int, at: int)
    requires Core(s)
    ensures PassMeans(s, RunDueFollowups(s, |s.actions|, now, at).(clock := at), now,
                      |DueFollowups(s.actions, |s.actions|, now)|, BrokenByPass(s, |s.actions|, now, at))
  {
    if s.actions == [] {
      assert DueFollowups(s.actions, 0, now) == {};
    } else {
      OlderFollowupsAreNotDue(s, |s.actions| - 1, now, at);
      DueFollowupsNext(s.actions, |s.actions| - 1, now);
      assert RunDueFollowups(s, |s.actions|, now, at) == RunDueFollowup(s, |s.actions| - 1, now, at);
    }
  }

  /** A standing call succeeds with its result, once; a late success is dropped and its row cancelled. */
  predicate ExternalMeans(s: Case, t: Case, i: nat, result: Option<string>, outcome: Outcome)
    requires HasAction(s, i)
  {
    if Stands(s, i) then outcome.Done? && SucceedsWith(s, t, i, result) && i !in s.effects
    else outcome.Stale? && if IsExecuting(s, i) then OnlyCancels(s, t, i) else Unchanged(s, t)
  }

  lemma ExternalHolds(s: Case, i: nat, result: Option<string>, at: int, outcome: Outcome, cfg: Settings)
    requires Core(s) && EffectsOnce(s) && IsEnabled(s, Step(ExternalDone(i, result), at))
    requires outcome == if CompleteExternal(s, i, result).effects != s.effects then Done else Stale
    ensures ExternalMeans(s, CompleteExternal(s, i, result).(clock := at), i, result, outcome)
  {
    if IsExecuting(s, i) {
      StandingIsEligible(s, i);
      assert multiset(s.effects)[i] == 0;
    }
  }

  lemma ExternalEnds(s: Case, i: nat, result: Option<string>, at: int, outcome: Outcome, cfg: Settings)
    requires Reachable(s, cfg) && cfg.maxAttempts >= 1 && IsEnabled(s, Step(ExternalDone(i, result), at))
    requires outcome == if CompleteExternal(s, i, result).effects != s.effects then Done else Stale
    ensures Commits(s, Step(ExternalDone(i, result), at), cfg)
    ensures ExternalMeans(s, Apply(s, Step(ExternalDone(i, result), at), cfg), i, result, outcome)
  {
    ReachableEffectsAreOnce(s, cfg);
    TransactionEnds(s, Step(ExternalDone(i, result), at), cfg);
    ExternalHolds(s, i, result, at, outcome, cfg);
  }

  /** A standing claim whose call failed is retried or goes to review; a stale one is cancelled. */
  predicate RetryMeans(s: Case, t: Case, i: nat, now: int, outcome: Outcome, cfg: Settings)
    requires HasAction(s, i)
  {
    if Stands(s, i) then RetriesOrFails(s, t, i, now, outcome, cfg)
    else outcome.Stale? && if IsExecuting(s, i) then OnlyCancels(s, t, i) else Unchanged(s, t)
  }

  /** What the retry handler reports about the row it leaves. */
  predicate IsRetryOutcome(s: Case, t: Case, i: nat, outcome: Outcome)
    requires HasAction(s, i)
  {
    && (outcome.RetryScheduled? <==> IsExecuting(s, i) && HasAction(t, i) && t.actions[i].status.Scheduled?)
    && (outcome.Failure? <==> IsExecuting(s, i) && HasAction(t, i) && t.actions[i].status.Failed?)
    && (outcome.RetryScheduled? || outcome.Failure? || outcome.Stale?)
  }

  lemma RetryHolds(s: Case, i: nat, now: int, at: int, outcome: Outcome, cfg: Settings)
    requires Core(s) && AllWithinBudget(s.actions, cfg) && IsEnabled(s, Step(ExternalRetry(i, now), at))
    requires IsRetryOutcome(s, RetryOrFail(s, i, cfg, now), i, outcome)
    ensures RetryMeans(s, RetryOrFail(s, i, cfg, now).(clock := at), i, now, outcome, cfg)
  {
    assert WithinBudget(s.actions[i], cfg);
    if IsExecuting(s, i) {
      StandingIsEligible(s, i);
    }
  }

  lemma RetryEnds(s: Case, i: nat, now: int, at: int, outcome: Outcome, cfg: Settings)
    requires Reachable(s, cfg) && cfg.maxAttempts >= 1 && IsEnabled(s, Step(ExternalRetry(i, now), at))
    requires IsRetryOutcome(s, RetryOrFail(s, i, cfg, now), i, outcome)
    ensures Commits(s, Step(ExternalRetry(i, now), at), cfg)
    ensures RetryMeans(s, Apply(s, Step(ExternalRetry(i, now), at), cfg), i, now, outcome, cfg)
  {
    ReachableBudgetIsKept(s, cfg);
    TransactionEnds(s, Step(ExternalRetry(i, now), at), cfg);
    RetryHolds(s, i, now, at, outcome, cfg);
  }

  /** A mismatch fails the action and sends the case to review whatever its state, exactly if it is EXECUTING. */
  predicate MismatchMeans(s: Case, t: Case, i: nat, failed: bool)
    requires HasAction(s, i)
  {
    if IsExecuting(s, i) then failed && FailsToReview(s, t, i) else !failed && Unchanged(s, t)
  }

  /** A lease is over once the timeout has passed since the claim, and not before. */
  predicate IsOver(a: Action, now: int, cfg: Settings) {
    a.status.Executing? && a.claimedAt.Some? && a.claimedAt.value + cfg.claimTimeout * SECOND <= now
  }

  /** The end of a lease: the claim is put back for now, or has no attempt left, or stands no longer. */
  predicate PutsBack(s: Case, t: Case, i: nat, now: int, cfg: Settings)
    requires HasAction(s, i)
  {
    var a := s.actions[i];
    if !Stands(s, i) then OnlyCancels(s, t, i)
    else if a.attempts < cfg.maxAttempts then
      t == s.(actions := s.actions[i := a.(status := Scheduled, scheduledFor := now, claimedAt := None)],
          clock := t.clock)
    else FailsToReview(s, t, i)
  }

  /** One claim was put back, or failed, or neither; the counts say which. */
  predicate IsLeaseCount(s: Case, t: Case, i: nat, reset: nat, failed: nat) {
    && reset == (if IsExecuting(s, i) && HasAction(t, i) && t.actions[i].status.Scheduled? then 1 else 0)
    && failed == (if IsExecuting(s, i) && HasAction(t, i) && t.actions[i].status.Failed? then 1 else 0)
  }

  /** A claim younger than the timeout is left alone; the counts say what became of an older one. */
  predicate LeaseMeans(s: Case, t: Case, i: nat, now: int, reset: nat, failed: nat, cfg: Settings) {
    && IsLeaseCount(s, t, i, reset, failed)
    && if HasAction(s, i) && IsOver(s.actions[i], now, cfg) then PutsBack(s, t, i, now, cfg) else Unchanged(s, t)
  }

  lemma LeaseHolds(s: Case, i: nat, now: int, at: int, reset: nat, failed: nat, cfg: Settings)
    requires Core(s) && AllWithinBudget(s.actions, cfg)
    requires IsLeaseCount(s, RecoverLease(s, i, cfg, now), i, reset, failed)
    ensures LeaseMeans(s, RecoverLease(s, i, cfg, now).(clock := at), i, now, reset, failed, cfg)
  {
    if HasAction(s, i) {
      assert WithinBudget(s.actions[i], cfg);
      if IsExecuting(s, i) {
        StandingIsEligible(s, i);
      }
    }
  }

  lemma LeaseEnds(s: Case, t: Case, i: nat, now: int, at: int, reset: nat, failed: nat, cfg: Settings)
    requires s.clock < at && now <= at
    requires Reachable(s, cfg) && cfg.maxAttempts >= 1
    requires t == RecoverLease(s, i, cfg, now).(clock := at) && IsLeaseCount(s, t, i, reset, failed)
    ensures Reachable(t, cfg) && Transacts(s, Step(LeaseSwept(i, now), at), t, cfg)
    ensures LeaseMeans(s, t, i, now, reset, failed, cfg)
  {
    ReachableBudgetIsKept(s, cfg);
    TransactionEnds(s, Step(LeaseSwept(i, now), at), cfg);
    LeaseHolds(s, i, now, at, reset, failed, cfg);
  }

  /** A new case is recovered at once if its capture came first, and else diagnosed and decided. */
  predicate OpeningMeans(
    s: Case, category: Category, amount: Option<int>, currency: string, subscriptionLinked: bool,
    alreadyCaptured: bool, mode: Mode, now: int, cfg: Settings)
  {
    && s.amount == (if amount.Some? then amount.value else 0) && s.currency == currency
    && s.subscriptionLinked == subscriptionLinked && s.link == None
    && s.promises == [] && s.effects == [] && s.failures == 1
    && if alreadyCaptured then s.state.Recovered? && s.category.UnknownFailure? && s.actions == [] && s.decisions == []
       else
         && s.category == category && |s.actions| == 1 && |s.decisions| == 1
         && ShowsDecision(s, s.decisions[0].chosen, ByFailure, now, cfg)
         && s.decisions[0].chosen == Choice(mode, Seen([], 0), Seen([], 1),
              Subject(s.amount, category, subscriptionLinked), cfg, now)
  }

  lemma OpeningEnds(
    s: Case, category: Category, amount: Option<int>, currency: string, subscriptionLinked: bool,
    alreadyCaptured: bool, mode: Mode, cfg: Settings, now: int, at: int)
    requires now <= at
    requires s == OpenCase(category, amount, currency, subscriptionLinked, alreadyCaptured, mode, cfg, now, at)
    ensures Reachable(s, cfg)
    ensures OpeningMeans(s, category, amount, currency, subscriptionLinked, alreadyCaptured, mode, now, cfg)
  {
    OpenedIsReachable(Opening(category, amount, currency, subscriptionLinked, alreadyCaptured, mode, now, at), cfg);
  }
}
