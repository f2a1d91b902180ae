/** Without inbound events every run changes the case a bounded number of times. */
module Termination {
  import opened Rows
  import opened GuardrailEngine
  import opened PolicyDispatch
  import opened Runtime
  import opened Protocol
  import opened LiveAction
  import opened History
  import opened ContactCap
  import opened AttemptBudget

  /** Attempts a live row has left, doubled, plus one while it is claimed. */
  function Weight(a: Action): nat {
    var left := if a.maxAttempts >= a.attempts then a.maxAttempts - a.attempts else 0;
    match a.status
    case Scheduled => 2 * left
    case Executing => 2 * left + 1
    case _ => 0
  }

  function TotalWeight(actions: seq<Action>): nat {
    if actions == [] then 0 else TotalWeight(actions[..|actions| - 1]) + Weight(actions[|actions| - 1])
  }

  /** What a wait kind that was never executed can still bring: its completion and one new action. */
  function WaitReserve(actions: seq<Action>, kind: ActionType, cfg: Settings): nat {
    if WaitCompleted(actions, kind) then 0 else 2 * cfg.maxAttempts + 1
  }

  /** Bounds the state changes the worker can still make on its own. */
  function Measure(s: Case, cfg: Settings): nat {
    TotalWeight(s.actions) + WaitReserve(s.actions, Wait, cfg) + WaitReserve(s.actions, WaitForNativeRetry, cfg)
  }

  lemma {:induction false} TotalWeightUpdate(actions: seq<Action>, i: nat, b: Action)
    requires i < |actions|
    ensures TotalWeight(actions[i := b]) == TotalWeight(actions) - Weight(actions[i]) + Weight(b)
    decreases |actions|
  {
    var n := |actions| - 1;
    if i == n {
      assert actions[i := b][..n] == actions[..n];
    } else {
      assert actions[i := b][..n] == actions[..n][i := b];
      TotalWeightUpdate(actions[..n], i, b);
    }
  }

  lemma TotalWeightAppend(actions: seq<Action>, a: Action)
    ensures TotalWeight(actions + [a]) == TotalWeight(actions) + Weight(a)
  {
    assert (actions + [a])[..|actions|] == actions;
  }

  lemma TransitionLosesWeight(a: Action, b: Action, cfg: Settings)
    requires RowTransition(a, b, cfg) && WithinBudget(a, cfg) && WithinBudget(b, cfg)
    ensures b != a ==> Weight(b) < Weight(a)
  {
  }

  lemma ExecutedWaitsStay(old': seq<Action>, new': seq<Action>, kind: ActionType)
    requires RowsEvolve(old', new') && WaitCompleted(old', kind)
    ensures WaitCompleted(new', kind)
  {
  }

  lemma OneRowMeasure(s: Case, t: Case, i: nat, cfg: Settings)
    requires AllWithinBudget(s.actions, cfg) && AllWithinBudget(t.actions, cfg)
    requires i < |s.actions| && RowsEvolve(s.actions, t.actions)
    requires |t.actions| == |s.actions| && t.actions == s.actions[i := t.actions[i]]
    requires RowTransition(s.actions[i], t.actions[i], cfg) && t.actions[i] != s.actions[i]
    ensures Measure(t, cfg) < Measure(s, cfg)
  {
    TotalWeightUpdate(s.actions, i, t.actions[i]);
    TransitionLosesWeight(s.actions[i], t.actions[i], cfg);
    if WaitCompleted(s.actions, Wait) { ExecutedWaitsStay(s.actions, t.actions, Wait); }
    if WaitCompleted(s.actions, WaitForNativeRetry) { ExecutedWaitsStay(s.actions, t.actions, WaitForNativeRetry); }
  }

  /** A completed wait pays for the action it brings with the wait it uses up. */
  lemma WaitMeasure(s: Case, i: nat, chosen: ActionType, cfg: Settings, now: int, at: int)
    requires AllWithinBudget(s.actions, cfg) && WaitsOnce(s.actions)
    requires IsExecuting(s, i) && IsWait(s.actions[i].kind) && i == |s.actions| - 1
    ensures Measure(RecordDecision(WaitedCase(s, i), chosen, ByWait, cfg, now, at), cfg) < Measure(s, cfg)
  {
    var w := WaitedCase(s, i);
    var a := DecidedAction(chosen, cfg, now, at);
    var t := w.actions + [a];
    TotalWeightUpdate(s.actions, i, w.actions[i]);
    TotalWeightAppend(w.actions, a);
    var kind := s.actions[i].kind;
    assert !WaitCompleted(s.actions, kind) by {
      if WaitCompleted(s.actions, kind) {
        var j :| 0 <= j < |s.actions| && s.actions[j].kind == kind && s.actions[j].status.Executed?;
        assert IsCounted(s.actions, j) && IsCounted(s.actions, i);
        assert false;
      }
    }
    assert t[i].kind == kind && t[i].status.Executed?;
    assert WaitCompleted(t, kind);
    WaitsStayCompleted(s.actions, i, t, Wait);
    WaitsStayCompleted(s.actions, i, t, WaitForNativeRetry);
  }

  lemma WaitsStayCompleted(old': seq<Action>, i: nat, new': seq<Action>, kind: ActionType)
    requires i < |old'| <= |new'| && old'[i].status.Executing?
    requires forall j :: 0 <= j < |old'| && j != i ==> new'[j] == old'[j]
    ensures WaitCompleted(old', kind) ==> WaitCompleted(new', kind)
  {
    if WaitCompleted(old', kind) {
      var j :| 0 <= j < |old'| && old'[j].kind == kind && old'[j].status.Executed?;
      assert new'[j].kind == kind;
    }
  }

  /** Every worker step leaves the case as it was or strictly lowers the measure. */
  lemma WorkerStepLowersMeasure(s: Case, step: Step, cfg: Settings)
    requires Core(s) && WaitsOnce(s.actions) && AllWithinBudget(s.actions, cfg) && cfg.maxAttempts >= 1
    requires IsEnabled(s, step) && !IsInbound(step.event)
    ensures var t := Apply(s, step, cfg); t == s.(clock := step.at) || Measure(t, cfg) < Measure(s, cfg)
  {
    var t := Apply(s, step, cfg);
    if step.event.WaitDone? && IsExecuting(s, step.event.i) && s.state.Waiting?
        && !IsSuperseded(s.actions, step.event.i) {
      var WaitDone(i, mode, now) := step.event;
      OnlyNewestGoesForward(s, i);
      var w := WaitedCase(s, i);
      var seen := Seen(w.actions, w.failures);
      WaitMeasure(s, i, Choice(mode, seen, seen, SubjectOf(w), cfg, now), cfg, now, step.at);
    } else if t != s.(clock := step.at) {
      WorkerChangesOneRow(s, step, cfg);
      StepKeepsBudget(s, step, cfg);
      StepTransitions(s, step, cfg);
      StepEvolvesRows(s, step, cfg);
      OneRowMeasure(s, t, step.event.i, cfg);
    }
  }

  /** How many steps of a run changed more than the clock. */
  ghost function Changes(s: Case, steps: seq<Step>, t: Case, cfg: Settings): nat
    requires IsRun(s, steps, t, cfg)
    decreases steps
  {
    if steps == [] then 0 else
      var next := Apply(s, steps[0], cfg);
      (if next == s.(clock := steps[0].at) then 0 else 1) + Changes(next, steps[1..], t, cfg)
  }

  /** With no inbound event, a run of any length changes the case at most `Measure` times. */
  lemma {:induction false} WorkerRunsAreBounded(s: Case, steps: seq<Step>, t: Case, cfg: Settings)
    requires Core(s) && Capped(s.actions, cfg.guardrails) && WaitsOnce(s.actions)
    requires AllWithinBudget(s.actions, cfg) && cfg.maxAttempts >= 1
    requires IsRun(s, steps, t, cfg)
    requires forall k :: 0 <= k < |steps| ==> !IsInbound(steps[k].event)
    ensures Changes(s, steps, t, cfg) + Measure(t, cfg) <= Measure(s, cfg)
    decreases steps
  {
    if steps != [] {
      var u := Apply(s, steps[0], cfg);
      WorkerStepLowersMeasure(s, steps[0], cfg);
      StepKeepsCore(s, steps[0], cfg);
      StepKeepsCap(s, steps[0], cfg);
      StepKeepsBudget(s, steps[0], cfg);
      WorkerRunsAreBounded(u, steps[1..], t, cfg);
    }
  }
}
