/** What one step may do to the rows that were there before it, and what it may append. */
module History {
  import opened Rows
  import opened GuardrailEngine
  import opened PolicyDispatch
  import opened Runtime
  import opened Orchestrator
  import opened Protocol
  import opened LiveAction

  predicate IsFinal(a: Action) { a.status.Executed? || a.status.Cancelled? || a.status.Failed? }

  /** Identity columns never change, and an EXECUTED, CANCELLED or FAILED row never changes at all. */
  predicate RowMoves(a: Action, b: Action) {
    && b.kind == a.kind && b.createdAt == a.createdAt && b.maxAttempts == a.maxAttempts && b.promise == a.promise
    && (IsFinal(a) ==> b == a)
  }

  /** A claimed wait or contact that succeeds or goes back to SCHEDULED. */
  predicate GoesForward(a: Action, b: Action) {
    !a.kind.FollowUpPtp? && a.status.Executing? && (b.status.Executed? || b.status.Scheduled?)
  }

  ghost predicate RowsEvolve(old': seq<Action>, new': seq<Action>) {
    && |old'| <= |new'|
    && forall i :: 0 <= i < |old'| ==>
         && RowMoves(old'[i], new'[i])
         && (GoesForward(old'[i], new'[i]) ==> i == |old'| - 1)
         && (new'[i].status.Executed? && !old'[i].status.Executed? && !old'[i].kind.FollowUpPtp? ==>
             old'[i].status.Executing?)
  }

  /** The rows a decision looked at, given the rows `past` it leaves behind. */
  ghost predicate SamePast(view: seq<Action>, past: seq<Action>) {
    && |view| == |past|
    && forall i :: 0 <= i < |past| ==>
         && view[i].kind == past[i].kind && view[i].createdAt == past[i].createdAt
         && (view[i].status.Executed? <==> past[i].status.Executed?)
  }

  /** The amount and the time a decision goes by, and the time it is committed. */
  datatype Basis = Basis(amount: int, now: int, at: int)

  /** A policy that saw `view` was allowed to pick `kind`. */
  ghost predicate PickedWithin(view: seq<Action>, past: seq<Action>, kind: ActionType, g: Guardrails, basis: Basis) {
    && basis.now <= basis.at && SamePast(view, past)
    && (kind.Stop? || Allowed(view, basis.amount, kind, g, basis.now))
  }

  /** `new'` is `past` plus one action chosen by the policy within the guardrails. */
  ghost predicate DecidedNext(past: seq<Action>, new': seq<Action>, g: Guardrails, basis: Basis) {
    && |new'| == |past| + 1 && new'[..|past|] == past
    && (forall i :: 0 <= i < |past| ==> !past[i].status.Scheduled?)
    && new'[|past|].createdAt == basis.at
    && !new'[|past|].kind.FollowUpPtp?
    && (new'[|past|].status.Scheduled?
        || (new'[|past|].status.Executed? && !IsContact(new'[|past|].kind) && !IsWait(new'[|past|].kind)))
    && exists view: seq<Action> :: PickedWithin(view, past, new'[|past|].kind, g, basis)
  }

  lemma DecideAppends(s: Case, cause: Cause, seen: Seen, mode: Mode, cfg: Settings, now: int, at: int)
    requires now <= at && SamePast(seen.rows, s.actions) && s.state.Diagnosed?
    requires forall i :: 0 <= i < |s.actions| ==> !s.actions[i].status.Scheduled?
    ensures DecidedNext(s.actions, Decide(s, cause, seen, mode, cfg, now, at).actions, cfg.guardrails,
                        Basis(s.amount, now, at))
  {
    var flushed := Seen(s.actions, s.failures);
    var view := ChoiceIsGuarded(mode, seen, flushed, SubjectOf(s), cfg, now);
    var chosen := Choice(mode, seen, flushed, SubjectOf(s), cfg, now);
    assert PickedWithin(view.rows, s.actions, chosen, cfg.guardrails, Basis(s.amount, now, at));
  }

  lemma FailureShape(s: Case, category: Category, rebill: Option<Rebill>, mode: Mode, cfg: Settings, now: int, at: int)
    requires Core(s) && now <= at
    ensures var t := HandleFailure(s, category, rebill, mode, cfg, now, at);
            t.actions == s.actions
            || DecidedNext(CancelScheduled(s.actions), t.actions, cfg.guardrails, Basis(t.amount, now, at))
  {
    if (rebill.Some? && !IsOpenForRebill(s.state)) || !IsDiagnosable(s.state) || HasPendingPromise(s.promises) {
    } else {
      var d := Diagnosis(s, category, rebill);
      DiagnosisIsReady(s, category, rebill);
      assert d.actions == CancelScheduled(s.actions);
      DecideAppends(d, ByFailure, Seen(s.actions, s.failures), mode, cfg, now, at);
    }
  }

  lemma WaitShape(s: Case, i: nat, mode: Mode, cfg: Settings, now: int, at: int)
    requires Core(s) && now <= at && IsExecuting(s, i)
    requires s.state.Waiting? && !IsSuperseded(s.actions, i)
    ensures i == |s.actions| - 1
    ensures DecidedNext(WaitedCase(s, i).actions, CompleteWait(s, i, mode, cfg, now, at).actions, cfg.guardrails,
                        Basis(s.amount, now, at))
  {
    OnlyNewestGoesForward(s, i);
    var done := WaitedCase(s, i);
    DecideAppends(done, ByWait, Seen(done.actions, done.failures), mode, cfg, now, at);
  }

  lemma CancelScheduledEvolves(actions: seq<Action>, new': seq<Action>)
    requires |actions| <= |new'| && new'[..|actions|] == CancelScheduled(actions)
    ensures RowsEvolve(actions, new')
  {
    assert forall i :: 0 <= i < |actions| ==> new'[i] == new'[..|actions|][i];
  }

  lemma OneRowEvolves(actions: seq<Action>, i: nat, b: Action)
    requires i < |actions|
    requires RowMoves(actions[i], b) && (GoesForward(actions[i], b) ==> i == |actions| - 1)
    requires b.status.Executed? && !actions[i].kind.FollowUpPtp? ==> !actions[i].status.Scheduled?
    ensures RowsEvolve(actions, actions[i := b])
  {
  }

  /** An inbound event only cancels what is scheduled and appends at most one row. */
  lemma InboundEvolvesRows(s: Case, step: Step, cfg: Settings)
    requires Core(s) && IsEnabled(s, step) && IsInbound(step.event)
    ensures RowsEvolve(s.actions, Apply(s, step, cfg).actions)
  {
    var t := Apply(s, step, cfg).actions;
    if step.event.FailureReported? {
      FailureShape(s, step.event.category, step.event.rebill, step.event.mode, cfg, step.event.now, step.at);
    }
    if t != s.actions {
      CancelScheduledEvolves(s.actions, t);
    }
  }

  /** The case is as it was but for its clock, or exactly row `i` changed. */
  predicate ChangesOneRow(s: Case, t: Case, i: nat) {
    || t == s.(clock := t.clock)
    || (i < |s.actions| && |t.actions| == |s.actions| && t.actions[i] != s.actions[i]
        && t.actions == s.actions[i := t.actions[i]])
  }

  lemma FollowupChangesOneRow(s: Case, i: nat, now: int, at: int)
    ensures ChangesOneRow(s, CompletePtp(s, i, at), i)
    ensures ChangesOneRow(s, RunDueFollowup(s, i, now, at), i)
  {
  }

  lemma ExternalChangesOneRow(s: Case, i: nat, result: Option<string>)
    ensures ChangesOneRow(s, CompleteExternal(s, i, result), i)
  {
  }

  /** A worker step that is not a completed wait changes nothing, or one row. */
  lemma WorkerChangesOneRow(s: Case, step: Step, cfg: Settings)
    requires IsEnabled(s, step) && !IsInbound(step.event)
    requires step.event.WaitDone? ==>
               !(IsExecuting(s, step.event.i) && s.state.Waiting? && !IsSuperseded(s.actions, step.event.i))
    ensures ChangesOneRow(s, Apply(s, step, cfg), step.event.i)
  {
    match step.event
    case PtpDone(i) => FollowupChangesOneRow(s, i, step.at, step.at);
    case DueFollowupRun(i, now) => FollowupChangesOneRow(s, i, now, step.at);
    case ExternalDone(i, result) => ExternalChangesOneRow(s, i, result);
    case _ =>
  }

  predicate RowGoesOn(old': seq<Action>, new': seq<Action>, i: nat) {
    && i < |old'| == |new'|
    && RowMoves(old'[i], new'[i])
    && (GoesForward(old'[i], new'[i]) ==> i == |old'| - 1)
    && (new'[i].status.Executed? && !old'[i].kind.FollowUpPtp? ==> !old'[i].status.Scheduled?)
  }

  lemma FollowupMovesRow(s: Case, i: nat, now: int, at: int)
    requires HasAction(s, i)
    ensures s.actions[i].kind.FollowUpPtp? ==> RowGoesOn(s.actions, CompletePtp(s, i, at).actions, i)
    ensures RowGoesOn(s.actions, RunDueFollowup(s, i, now, at).actions, i)
  {
  }

  lemma ContactMovesRow(s: Case, i: nat, result: Option<string>, cfg: Settings, now: int)
    requires Core(s) && HasAction(s, i) && IsContact(s.actions[i].kind)
    ensures RowGoesOn(s.actions, CompleteExternal(s, i, result).actions, i)
    ensures RowGoesOn(s.actions, RetryOrFail(s, i, cfg, now).actions, i)
  {
    if s.state.ActionScheduled? {
      OnlyNewestGoesForward(s, i);
    }
  }

  /** A worker lets a wait or contact go forward only if it is the newest. */
  lemma WorkerMovesRow(s: Case, step: Step, cfg: Settings)
    requires Core(s) && IsEnabled(s, step) && !IsInbound(step.event) && !step.event.WaitDone?
    requires step.event.i < |s.actions|
    ensures RowGoesOn(s.actions, Apply(s, step, cfg).actions, step.event.i)
  {
    var k := step.event.i;
    match step.event
    case PtpDone(i) => FollowupMovesRow(s, i, step.at, step.at);
    case DueFollowupRun(i, now) => FollowupMovesRow(s, i, now, step.at);
    case ExternalDone(i, result) => ContactMovesRow(s, i, result, cfg, step.at);
    case ExternalRetry(i, now) => ContactMovesRow(s, i, None, cfg, now);
    case _ =>
      if s.state.Waiting? || s.state.ActionScheduled? {
        OnlyNewestGoesForward(s, k);
      }
  }

  /** A worker step changes one row, and lets it go forward only if it is the newest. */
  lemma WorkerEvolvesRows(s: Case, step: Step, cfg: Settings)
    requires Core(s) && IsEnabled(s, step) && !IsInbound(step.event) && !step.event.WaitDone?
    ensures RowsEvolve(s.actions, Apply(s, step, cfg).actions)
  {
    var t := Apply(s, step, cfg).actions;
    WorkerChangesOneRow(s, step, cfg);
    if t != s.actions {
      WorkerMovesRow(s, step, cfg);
      OneRowEvolves(s.actions, step.event.i, t[step.event.i]);
    }
  }

  lemma WaitEvolvesRows(s: Case, i: nat, mode: Mode, cfg: Settings, now: int, at: int)
    requires Core(s) && now <= at
    ensures RowsEvolve(s.actions, CompleteWait(s, i, mode, cfg, now, at).actions)
  {
    if IsExecuting(s, i) && s.state.Waiting? && !IsSuperseded(s.actions, i) {
      WaitShape(s, i, mode, cfg, now, at);
      var past, t := WaitedCase(s, i).actions, CompleteWait(s, i, mode, cfg, now, at).actions;
      assert forall j :: 0 <= j < |past| ==> t[j] == t[..|past|][j];
    }
  }

  lemma StepEvolvesRows(s: Case, step: Step, cfg: Settings)
    requires Core(s) && IsEnabled(s, step)
    ensures RowsEvolve(s.actions, Apply(s, step, cfg).actions)
  {
    if IsInbound(step.event) {
      InboundEvolvesRows(s, step, cfg);
    } else if step.event.WaitDone? {
      WaitEvolvesRows(s, step.event.i, step.event.mode, cfg, step.event.now, step.at);
    } else {
      WorkerEvolvesRows(s, step, cfg);
    }
  }

  predicate FollowUpNext(past: seq<Action>, new': seq<Action>) {
    && |new'| == |past| + 1 && new'[..|past|] == past
    && new'[|past|].kind.FollowUpPtp? && new'[|past|].status.Scheduled?
  }

  /** What the steps that append a row append. */
  ghost predicate AppendsByRule(old': seq<Action>, new': seq<Action>, g: Guardrails, basis: Basis) {
    |new'| == |old'| ||
    (exists past: seq<Action> :: |past| == |old'| && (DecidedNext(past, new', g, basis) || FollowUpNext(past, new')))
  }

  /** A decision goes by the amount the step leaves on the case, and by the time the step started with. */
  function BasisOf(step: Step, t: Case): Basis {
    var now := match step.event
      case FailureReported(_, _, _, now) => now
      case WaitDone(_, _, now) => now
      case _ => step.at;
    Basis(t.amount, now, step.at)
  }

  lemma StepAppendsByRule(s: Case, step: Step, cfg: Settings)
    requires Core(s) && IsEnabled(s, step)
    ensures var t := Apply(s, step, cfg); AppendsByRule(s.actions, t.actions, cfg.guardrails, BasisOf(step, t))
  {
    var t := Apply(s, step, cfg);
    match step.event
    case FailureReported(category, rebill, mode, now) =>
      FailureShape(s, category, rebill, mode, cfg, now, step.at);
    case CustomerReplied(e, now) =>
      if |t.actions| != |s.actions| {
        var past := CancelScheduled(s.actions);
        assert t.actions[..|past|] == past;
      }
    case WaitDone(i, mode, now) =>
      if IsExecuting(s, i) && s.state.Waiting? && !IsSuperseded(s.actions, i) {
        WaitShape(s, i, mode, cfg, now, step.at);
      }
    case _ =>
  }

  // ---- What starts a row ----

  lemma OnlyClaimsStart(s: Case, step: Step, cfg: Settings, i: nat)
    requires Core(s) && IsEnabled(s, step) && i < |s.actions| && i < |Apply(s, step, cfg).actions|
    requires s.actions[i].status.Scheduled? && Apply(s, step, cfg).actions[i].status.Executing?
    ensures step.event.ClaimDue? && step.event.i == i
  {
    if IsInbound(step.event) {
      InboundStartsNothing(s, step, cfg, i);
    } else if step.event.WaitDone? {
      WaitStartsNothing(s, step, cfg, i);
    } else {
      WorkerChangesOneRow(s, step, cfg);
    }
  }

  lemma InboundStartsNothing(s: Case, step: Step, cfg: Settings, i: nat)
    requires Core(s) && IsEnabled(s, step) && IsInbound(step.event)
    requires i < |s.actions| && i < |Apply(s, step, cfg).actions| && s.actions[i].status.Scheduled?
    ensures !Apply(s, step, cfg).actions[i].status.Executing?
  {
    if step.event.FailureReported? {
      var t := Apply(s, step, cfg).actions;
      FailureShape(s, step.event.category, step.event.rebill, step.event.mode, cfg, step.event.now, step.at);
      assert t != s.actions ==> t[i] == t[..|s.actions|][i];
    }
  }

  lemma WaitStartsNothing(s: Case, step: Step, cfg: Settings, i: nat)
    requires Core(s) && IsEnabled(s, step) && step.event.WaitDone?
    requires i < |s.actions| && i < |Apply(s, step, cfg).actions| && s.actions[i].status.Scheduled?
    ensures !Apply(s, step, cfg).actions[i].status.Executing?
  {
    if s.state.Waiting? && HasAction(s, step.event.i) {
      OnlyNewestGoesForward(s, step.event.i);
    }
  }
}
