/** At-most-once effects and the number of policy decisions. */
module EffectLedger {
  import opened Rows
  import opened GuardrailEngine
  import opened PolicyDispatch
  import opened Runtime
  import opened Orchestrator
  import opened Protocol
  import opened LiveAction
  import opened History
  import opened ContactCap
  import opened AttemptBudget
  import opened Latch

  // ---- Effects ----

  /** The success of an action was applied exactly once if it is an EXECUTED contact or link, else never. */
  ghost predicate EffectsOnce(s: Case) {
    && (forall k :: k in s.effects ==> k < |s.actions|)
    && (forall k :: 0 <= k < |s.actions| ==>
          multiset(s.effects)[k] == if IsContact(s.actions[k].kind) && s.actions[k].status.Executed? then 1 else 0)
  }

  lemma StepEffects(s: Case, step: Step, cfg: Settings)
    requires IsEnabled(s, step)
    ensures var t := Apply(s, step, cfg);
            if t.state.AwaitingOutcome? && step.event.ExternalDone? && IsExecuting(s, step.event.i)
               && s.state.ActionScheduled? && !IsSuperseded(s.actions, step.event.i)
            then t.effects == s.effects + [step.event.i]
              && t.actions == s.actions[step.event.i := t.actions[step.event.i]]
              && t.actions[step.event.i].status.Executed?
            else t.effects == s.effects
  {
  }

  lemma FailureExecutesNothing(s: Case, step: Step, cfg: Settings, k: nat)
    requires Core(s) && IsEnabled(s, step) && step.event.FailureReported?
    requires k < |s.actions| && k < |Apply(s, step, cfg).actions|
    ensures Apply(s, step, cfg).actions[k].status.Executed? <==> s.actions[k].status.Executed?
  {
    FailureTransitions(s, step, cfg, k);
    var t := Apply(s, step, cfg);
    FailureShape(s, step.event.category, step.event.rebill, step.event.mode, cfg, step.event.now, step.at);
    assert t.actions != s.actions ==> t.actions[k] == t.actions[..|s.actions|][k];
  }

  lemma WaitExecutesOnlyItself(s: Case, step: Step, cfg: Settings, k: nat)
    requires Core(s) && IsEnabled(s, step) && step.event.WaitDone?
    requires k < |s.actions| && k < |Apply(s, step, cfg).actions| && k != step.event.i
    ensures Apply(s, step, cfg).actions[k].status.Executed? <==> s.actions[k].status.Executed?
  {
    var WaitDone(i, mode, now) := step.event;
    if IsExecuting(s, i) && s.state.Waiting? && !IsSuperseded(s.actions, i) {
      WaitShape(s, i, mode, cfg, now, step.at);
      var t := CompleteWait(s, i, mode, cfg, now, step.at).actions;
      assert t[k] == t[..|s.actions|][k];
    }
  }

  lemma InboundExecutesNothing(s: Case, step: Step, cfg: Settings, k: nat)
    requires Core(s) && IsEnabled(s, step) && IsInbound(step.event)
    requires k < |s.actions| && k < |Apply(s, step, cfg).actions|
    ensures Apply(s, step, cfg).actions[k].status.Executed? <==> s.actions[k].status.Executed?
  {
    if step.event.FailureReported? {
      FailureExecutesNothing(s, step, cfg, k);
    }
  }

  /** Contacts become EXECUTED in the success path only. */
  lemma OnlySuccessExecutes(s: Case, step: Step, cfg: Settings, k: nat)
    requires Core(s) && IsEnabled(s, step) && k < |s.actions| && k < |Apply(s, step, cfg).actions|
    requires IsContact(s.actions[k].kind) && !s.actions[k].status.Executed?
        && Apply(s, step, cfg).actions[k].status.Executed?
    ensures step.event.ExternalDone? && step.event.i == k && Apply(s, step, cfg).effects == s.effects + [k]
  {
    if IsInbound(step.event) {
      InboundExecutesNothing(s, step, cfg, k);
    } else if step.event.WaitDone? {
      WaitExecutesOnlyItself(s, step, cfg, k);
    } else {
      WorkerChangesOneRow(s, step, cfg);
    }
  }

  lemma StepKeepsEffectsOnce(s: Case, step: Step, cfg: Settings)
    requires Core(s) && IsEnabled(s, step) && EffectsOnce(s)
    ensures EffectsOnce(Apply(s, step, cfg))
  {
    var t := Apply(s, step, cfg);
    StepEffects(s, step, cfg);
    StepTransitions(s, step, cfg);
    StepEvolvesRows(s, step, cfg);
    EffectsKeptByRows(s, t, cfg) by {
      forall k | 0 <= k < |s.actions| && IsContact(s.actions[k].kind)
        && !s.actions[k].status.Executed? && t.actions[k].status.Executed?
        ensures t.effects == s.effects + [k]
      {
        OnlySuccessExecutes(s, step, cfg, k);
      }
      if t.effects != s.effects {
        assert t.effects == s.effects + [step.event.i];
      }
    }
  }

  lemma EffectsKeptByRows(s: Case, t: Case, cfg: Settings)
    requires EffectsOnce(s) && RowsTransition(s.actions, t.actions, cfg) && RowsEvolve(s.actions, t.actions)
    requires t.effects == s.effects ||
             exists k :: 0 <= k < |s.actions| && t.effects == s.effects + [k]
               && IsContact(s.actions[k].kind) && s.actions[k].status.Executing? && t.actions[k].status.Executed?
    requires forall k | 0 <= k < |s.actions| && IsContact(s.actions[k].kind)
               && !s.actions[k].status.Executed? && t.actions[k].status.Executed? :: t.effects == s.effects + [k]
    ensures EffectsOnce(t)
  {
    forall k | 0 <= k < |t.actions|
      ensures multiset(t.effects)[k] == if IsContact(t.actions[k].kind) && t.actions[k].status.Executed? then 1 else 0
    {
      if k >= |s.actions| {
        assert k !in s.effects;
      }
    }
  }

  // ---- Decisions ----

  function CountCause(decisions: seq<Decision>, cause: Cause): nat {
    if decisions == [] then 0
    else CountCause(decisions[..|decisions| - 1], cause) + if decisions[|decisions| - 1].cause == cause then 1 else 0
  }

  function ExecutedWaits(actions: seq<Action>): set<nat> {
    set i: nat | i < |actions| && IsWait(actions[i].kind) && actions[i].status.Executed?
  }

  ghost predicate DecisionsBounded(s: Case, g: Guardrails) {
    && CountCause(s.decisions, ByWait) == |ExecutedWaits(s.actions)|
    && CountCause(s.decisions, ByFailure) <= s.failures
    && CountCause(s.decisions, ByFailure) <= g.maxTotalAttempts + 2
    && (!IsLatched(s) ==> s.failures <= g.maxTotalAttempts + 1)
  }

  lemma AppendCause(decisions: seq<Decision>, d: Decision, cause: Cause)
    ensures CountCause(decisions + [d], cause) == CountCause(decisions, cause) + if d.cause == cause then 1 else 0
  {
    assert (decisions + [d])[..|decisions|] == decisions;
  }

  lemma SameExecutedWaits(old': seq<Action>, new': seq<Action>)
    requires |old'| <= |new'|
    requires forall i | 0 <= i < |old'| :: new'[i].kind == old'[i].kind
               && (IsWait(old'[i].kind) ==> (new'[i].status.Executed? <==> old'[i].status.Executed?))
    requires forall i :: |old'| <= i < |new'| ==> !(IsWait(new'[i].kind) && new'[i].status.Executed?)
    ensures ExecutedWaits(new') == ExecutedWaits(old')
  {
  }

  lemma FailureDecisions(s: Case, step: Step, cfg: Settings)
    requires Core(s) && IsEnabled(s, step) && step.event.FailureReported? && !IsLatched(s)
    requires DecisionsBounded(s, cfg.guardrails)
    ensures DecisionsBounded(Apply(s, step, cfg), cfg.guardrails)
  {
    var FailureReported(category, rebill, mode, now) := step.event;
    var d := Diagnosis(s, category, rebill);
    var seen, flushed := Seen(s.actions, s.failures), Seen(d.actions, d.failures);
    assert !HasPendingPromise(s.promises);
    var view := ChoiceIsGuarded(mode, seen, flushed, SubjectOf(d), cfg, now);
    var chosen := Choice(mode, seen, flushed, SubjectOf(d), cfg, now);
    DiagnosisIsReady(s, category, rebill);
    assert d.decisions == s.decisions;
    var t := RecordDecision(d, chosen, ByFailure, cfg, now, step.at).(clock := step.at);
    assert Apply(s, step, cfg) == t;
    AppendCause(s.decisions, Decision(chosen, ByFailure), ByFailure);
    AppendCause(s.decisions, Decision(chosen, ByFailure), ByWait);
    SameExecutedWaits(s.actions, t.actions);
  }

  lemma RecordedWaitDecision(s: Case, i: nat, chosen: ActionType, cfg: Settings, now: int, at: int)
    requires Core(s) && DecisionsBounded(s, cfg.guardrails)
    requires IsExecuting(s, i) && IsWait(s.actions[i].kind) && s.state.Waiting?
    ensures DecisionsBounded(RecordDecision(WaitedCase(s, i), chosen, ByWait, cfg, now, at).(clock := at),
        cfg.guardrails)
  {
    AppendCause(s.decisions, Decision(chosen, ByWait), ByFailure);
    AppendCause(s.decisions, Decision(chosen, ByWait), ByWait);
    OneMoreExecutedWait(s.actions, i, DecidedAction(chosen, cfg, now, at));
  }

  /** A completed wait is one more executed wait; the action decided next is none. */
  lemma OneMoreExecutedWait(actions: seq<Action>, i: nat, next: Action)
    requires i < |actions| && IsWait(actions[i].kind) && !actions[i].status.Executed?
    requires !(IsWait(next.kind) && next.status.Executed?)
    ensures i !in ExecutedWaits(actions)
    ensures ExecutedWaits(actions[i := actions[i].(status := Executed)] + [next]) == ExecutedWaits(actions) + {i}
  {
    var done := actions[i := actions[i].(status := Executed)];
    assert ExecutedWaits(done) == ExecutedWaits(actions) + {i};
    SameExecutedWaits(done, done + [next]);
  }

  lemma WaitDecisions(s: Case, step: Step, cfg: Settings)
    requires Core(s) && IsEnabled(s, step) && step.event.WaitDone?
    requires IsExecuting(s, step.event.i) && s.state.Waiting? && !IsSuperseded(s.actions, step.event.i)
    requires DecisionsBounded(s, cfg.guardrails)
    ensures var i, t := step.event.i, Apply(s, step, cfg);
            && |t.decisions| == |s.decisions| + 1 && t.decisions[..|s.decisions|] == s.decisions
            && t.decisions[|s.decisions|].cause == ByWait
            && i !in ExecutedWaits(s.actions) && ExecutedWaits(t.actions) == ExecutedWaits(s.actions) + {i}
    ensures DecisionsBounded(Apply(s, step, cfg), cfg.guardrails)
  {
    var WaitDone(i, mode, now) := step.event;
    var w := WaitedCase(s, i);
    var seen := Seen(w.actions, w.failures);
    var chosen := Choice(mode, seen, seen, SubjectOf(w), cfg, now);
    OneMoreExecutedWait(s.actions, i, DecidedAction(chosen, cfg, now, step.at));
    RecordedWaitDecision(s, i, chosen, cfg, now, step.at);
  }

  /** The steps that decide nothing and execute no wait. */
  ghost predicate DecidesNothing(s: Case, t: Case) {
    && t.decisions == s.decisions && t.failures == s.failures
    && forall i :: 0 <= i < |s.actions| && i < |t.actions| && IsWait(s.actions[i].kind) ==>
         (t.actions[i].status.Executed? <==> s.actions[i].status.Executed?)
  }

  lemma InboundIsQuiet(s: Case, step: Step, cfg: Settings)
    requires IsEnabled(s, step) && IsInbound(step.event) && !step.event.FailureReported?
    ensures DecidesNothing(s, Apply(s, step, cfg))
  {
  }

  lemma FollowupIsQuiet(s: Case, i: nat, now: int, at: int)
    ensures HasAction(s, i) && s.actions[i].kind.FollowUpPtp? ==> DecidesNothing(s, CompletePtp(s, i, at).(clock := at))
    ensures DecidesNothing(s, RunDueFollowup(s, i, now, at).(clock := at))
  {
  }

  lemma ExternalIsQuiet(s: Case, i: nat, result: Option<string>, at: int)
    requires HasAction(s, i) && IsContact(s.actions[i].kind)
    ensures DecidesNothing(s, CompleteExternal(s, i, result).(clock := at))
  {
  }

  lemma QuietSteps(s: Case, step: Step, cfg: Settings)
    requires IsEnabled(s, step) && !step.event.FailureReported?
    requires step.event.WaitDone? ==>
               !(IsExecuting(s, step.event.i) && s.state.Waiting? && !IsSuperseded(s.actions, step.event.i))
    ensures DecidesNothing(s, Apply(s, step, cfg))
  {
    match step.event
    case PtpDone(i) => FollowupIsQuiet(s, i, step.at, step.at);
    case DueFollowupRun(i, now) => FollowupIsQuiet(s, i, now, step.at);
    case ExternalDone(i, result) => ExternalIsQuiet(s, i, result, step.at);
    case _ => if IsInbound(step.event) { InboundIsQuiet(s, step, cfg); }
  }

  lemma StepKeepsDecisionsBounded(s: Case, step: Step, cfg: Settings)
    requires Core(s) && IsEnabled(s, step) && DecisionsBounded(s, cfg.guardrails)
    ensures DecisionsBounded(Apply(s, step, cfg), cfg.guardrails)
  {
    var t := Apply(s, step, cfg);
    if step.event.FailureReported? && !IsLatched(s) {
      FailureDecisions(s, step, cfg);
    } else if step.event.WaitDone? && IsExecuting(s, step.event.i) && s.state.Waiting?
        && !IsSuperseded(s.actions, step.event.i) {
      WaitDecisions(s, step, cfg);
    } else {
      if IsLatched(s) {
        StepKeepsLatch(s, step, cfg);
      }
      StepTransitions(s, step, cfg);
      StepEvolvesRows(s, step, cfg);
      if step.event.FailureReported? {
        LatchedFailureKeepsRows(s, step, cfg);
      } else {
        QuietSteps(s, step, cfg);
      }
      NoDecisionKeepsBounded(s, t, cfg);
    }
  }

  lemma NoDecisionKeepsBounded(s: Case, t: Case, cfg: Settings)
    requires DecisionsBounded(s, cfg.guardrails) && t.decisions == s.decisions
    requires RowsTransition(s.actions, t.actions, cfg) && RowsEvolve(s.actions, t.actions)
    requires forall i :: 0 <= i < |s.actions| && IsWait(s.actions[i].kind) ==>
               (t.actions[i].status.Executed? <==> s.actions[i].status.Executed?)
    requires t.failures == s.failures || (IsLatched(t) && t.failures >= s.failures)
    requires IsLatched(s) ==> IsLatched(t)
    ensures DecisionsBounded(t, cfg.guardrails)
  {
    SameExecutedWaits(s.actions, t.actions);
  }

  lemma LatchedFailureKeepsRows(s: Case, step: Step, cfg: Settings)
    requires Core(s) && IsLatched(s) && IsEnabled(s, step) && step.event.FailureReported?
    ensures var t := Apply(s, step, cfg);
            t.actions == s.actions && t.decisions == s.decisions && t.failures >= s.failures
  {
  }

  /** A case gets at most maxTotalAttempts + 2 failure-driven and two wait-driven decisions. */
  lemma DecisionLimits(s: Case, g: Guardrails)
    requires Core(s) && DecisionsBounded(s, g) && WaitsOnce(s.actions)
    ensures CountCause(s.decisions, ByFailure) <= g.maxTotalAttempts + 2
    ensures CountCause(s.decisions, ByWait) <= 2
    ensures forall i, j :: i in ExecutedWaits(s.actions) && j in ExecutedWaits(s.actions) && i != j ==>
              s.actions[i].kind != s.actions[j].kind
  {
    ExecutedWaitsAreFew(s.actions);
    forall i, j | i in ExecutedWaits(s.actions) && j in ExecutedWaits(s.actions) && i != j
      ensures s.actions[i].kind != s.actions[j].kind
    {
      assert IsCounted(s.actions, i) && IsCounted(s.actions, j);
    }
  }

  function ExecutedOf(actions: seq<Action>, kind: ActionType): set<nat> {
    set i | i in ExecutedWaits(actions) && actions[i].kind == kind
  }

  lemma ExecutedWaitsAreFew(actions: seq<Action>)
    requires WaitsOnce(actions)
    ensures |ExecutedWaits(actions)| <= 2
  {
    ExecutedOnce(actions, Wait);
    ExecutedOnce(actions, WaitForNativeRetry);
    UnionIsSmall(ExecutedWaits(actions), ExecutedOf(actions, Wait), ExecutedOf(actions, WaitForNativeRetry));
  }

  lemma UnionIsSmall(all: set<nat>, a: set<nat>, b: set<nat>)
    requires forall i :: i in all ==> i in a || i in b
    ensures |all| <= |a| + |b|
  {
    SubsetIsSmaller(all - a, b);
    SubsetIsSmaller(all * a, a);
    assert all == (all - a) + (all * a);
  }

  lemma ExecutedOnce(actions: seq<Action>, kind: ActionType)
    requires WaitsOnce(actions)
    ensures |ExecutedOf(actions, kind)| <= 1
  {
    forall i, j | i in ExecutedOf(actions, kind) && j in ExecutedOf(actions, kind) ensures i == j {
      assert IsCounted(actions, i) && IsCounted(actions, j);
    }
    AtMostOne(ExecutedOf(actions, kind));
  }

  lemma AtMostOne(a: set<nat>)
    requires forall i, j :: i in a && j in a ==> i == j
    ensures |a| <= 1
  {
    if a != {} {
      var x :| x in a;
      assert a == {x};
    }
  }
}
