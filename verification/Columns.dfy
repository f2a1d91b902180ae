/** Two columns of the case that later transactions rely on: the amount, and the id of the payment link. */
module CaseColumns {
  import opened Rows
  import opened Runtime
  import opened Orchestrator
  import opened Protocol
  import opened LiveAction
  import opened History
  import opened AttemptBudget
  import opened EffectLedger

  // ---- The amount ----

  predicate NewestIsContact(s: Case) { |s.actions| > 0 && IsContact(s.actions[|s.actions| - 1].kind) }

  /** While the newest action is a contact, the amount is within the automation limit. */
  predicate AmountWithinCap(s: Case, g: Guardrails) { NewestIsContact(s) ==> s.amount <= g.maxAutomatedAmount }

  /** The amount changes only with a new decision, or beside an open promise. */
  lemma AmountChangesWithDecision(s: Case, step: Step, cfg: Settings)
    requires Core(s) && IsEnabled(s, step)
    requires |Apply(s, step, cfg).actions| == |s.actions| && Apply(s, step, cfg).amount != s.amount
    ensures step.event.FailureReported? && HasPendingPromise(s.promises) && !NewestIsContact(s)
  {
  }

  lemma StepKeepsAmountWithinCap(s: Case, step: Step, cfg: Settings)
    requires Core(s) && IsEnabled(s, step) && AmountWithinCap(s, cfg.guardrails)
    ensures AmountWithinCap(Apply(s, step, cfg), cfg.guardrails)
  {
    var t := Apply(s, step, cfg);
    if |t.actions| == |s.actions| {
      UnappendedKeepsAmount(s, step, cfg);
    } else {
      StepAppendsByRule(s, step, cfg);
      AppendedContactIsWithinCap(s.actions, t.actions, cfg.guardrails, BasisOf(step, t));
    }
  }

  lemma UnappendedKeepsAmount(s: Case, step: Step, cfg: Settings)
    requires Core(s) && IsEnabled(s, step) && AmountWithinCap(s, cfg.guardrails)
    requires |Apply(s, step, cfg).actions| == |s.actions|
    ensures AmountWithinCap(Apply(s, step, cfg), cfg.guardrails)
  {
    StepEvolvesRows(s, step, cfg);
    if Apply(s, step, cfg).amount != s.amount {
      AmountChangesWithDecision(s, step, cfg);
    }
  }

  lemma AppendedContactIsWithinCap(old': seq<Action>, new': seq<Action>, g: Guardrails, basis: Basis)
    requires AppendsByRule(old', new', g, basis) && |new'| != |old'|
    ensures |new'| == |old'| + 1
    ensures IsContact(new'[|old'|].kind) ==> basis.amount <= g.maxAutomatedAmount
  {
    var past: seq<Action> :| |past| == |old'| && (DecidedNext(past, new', g, basis) || FollowUpNext(past, new'));
    if IsContact(new'[|past|].kind) {
      var view: seq<Action> :| PickedWithin(view, past, new'[|past|].kind, g, basis);
    }
  }

  // ---- The payment link ----

  predicate IsPaidFor(a: Action) { a.kind.CreatePaymentLink? && a.status.Executed? }

  /** The newest executed payment-link action. */
  function LatestLinkAction(actions: seq<Action>): (r: Option<nat>)
    ensures r.Some? ==> r.value < |actions| && IsPaidFor(actions[r.value])
    ensures forall i :: (if r.Some? then r.value + 1 else 0) <= i < |actions| ==> !IsPaidFor(actions[i])
  {
    if actions == [] then None
    else
      var n := |actions| - 1;
      if IsPaidFor(actions[n]) then Some(n) else LatestLinkAction(actions[..n])
  }

  function LatestLink(actions: seq<Action>): Option<string> {
    var i := LatestLinkAction(actions);
    if i.None? then None else actions[i.value].link
  }

  /** The column always holds the link of the newest executed link action. */
  predicate LinkColumnIsLatest(s: Case) { s.link == LatestLink(s.actions) }

  lemma SameLatestLink(old': seq<Action>, new': seq<Action>)
    requires |old'| <= |new'|
    requires forall i :: 0 <= i < |old'| ==> (IsPaidFor(new'[i]) <==> IsPaidFor(old'[i]))
    requires forall i :: 0 <= i < |old'| && IsPaidFor(old'[i]) ==> new'[i] == old'[i]
    requires forall i :: |old'| <= i < |new'| ==> !IsPaidFor(new'[i])
    ensures LatestLink(new') == LatestLink(old')
  {
    var r, q := LatestLinkAction(new'), LatestLinkAction(old');
    assert r.Some? ==> IsPaidFor(old'[r.value]);
    assert q.Some? ==> IsPaidFor(new'[q.value]);
  }

  lemma CompletionSetsColumn(s: Case, i: nat, result: Option<string>, at: int)
    requires Core(s) && HasAction(s, i) && IsContact(s.actions[i].kind) && LinkColumnIsLatest(s)
    ensures LinkColumnIsLatest(CompleteExternal(s, i, result).(clock := at))
  {
    var t := CompleteExternal(s, i, result);
    if IsExecuting(s, i) && s.state.ActionScheduled? && !IsSuperseded(s.actions, i)
        && s.actions[i].kind.CreatePaymentLink? {
      OnlyNewestGoesForward(s, i);
      assert IsPaidFor(t.actions[i]);
    } else {
      SameLatestLink(s.actions, t.actions);
    }
  }

  lemma StepKeepsLinkColumn(s: Case, step: Step, cfg: Settings)
    requires Core(s) && IsEnabled(s, step) && LinkColumnIsLatest(s)
    ensures LinkColumnIsLatest(Apply(s, step, cfg))
  {
    var t := Apply(s, step, cfg);
    if step.event.ExternalDone? {
      CompletionSetsColumn(s, step.event.i, step.event.result, step.at);
    } else {
      OtherStepsKeepColumn(s, step, cfg);
      NoNewRowIsPaidFor(s, step, cfg);
      forall i | 0 <= i < |s.actions|
        ensures IsPaidFor(t.actions[i]) <==> IsPaidFor(s.actions[i])
        ensures IsPaidFor(s.actions[i]) ==> t.actions[i] == s.actions[i]
      {
        OtherStepsPayForNothing(s, step, cfg, i);
      }
      SameLatestLink(s.actions, t.actions);
    }
  }

  lemma OtherStepsPayForNothing(s: Case, step: Step, cfg: Settings, i: nat)
    requires Core(s) && IsEnabled(s, step) && !step.event.ExternalDone? && i < |s.actions|
    requires |s.actions| <= |Apply(s, step, cfg).actions|
    ensures var t := Apply(s, step, cfg);
            && (IsPaidFor(t.actions[i]) <==> IsPaidFor(s.actions[i]))
            && (IsPaidFor(s.actions[i]) ==> t.actions[i] == s.actions[i])
  {
    StepEvolvesRows(s, step, cfg);
    var t := Apply(s, step, cfg);
    if IsPaidFor(t.actions[i]) && !IsPaidFor(s.actions[i]) {
      OnlySuccessExecutes(s, step, cfg, i);
    }
  }

  lemma NoNewRowIsPaidFor(s: Case, step: Step, cfg: Settings)
    requires Core(s) && IsEnabled(s, step)
    ensures var t := Apply(s, step, cfg);
            |s.actions| <= |t.actions| && forall i :: |s.actions| <= i < |t.actions| ==> !IsPaidFor(t.actions[i])
  {
    StepTransitions(s, step, cfg);
  }

  lemma OtherStepsKeepColumn(s: Case, step: Step, cfg: Settings)
    requires IsEnabled(s, step) && !step.event.ExternalDone?
    ensures Apply(s, step, cfg).link == s.link
  {
  }

  /** Where the column is right, the payment of a link recovers the case exactly if it is the latest one. */
  lemma PaidLinkRecoversExactly(s: Case, paid: string, at: int)
    requires LinkColumnIsLatest(s)
    ensures HandleLinkPaid(s, paid, at) == s <==>
            s.state.Recovered? || s.state.Disputed? || LatestLink(s.actions) != Some(paid)
    ensures LatestLink(s.actions) == Some(paid) && !s.state.Disputed? ==> HandleLinkPaid(s, paid, at).state.Recovered?
  {
  }
}
