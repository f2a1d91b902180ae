/** Shadow mode and the adaptive fallback behave like the baseline, over whole runs; and where they do not. */
module ModeRefinement {
  import opened Rows
  import opened GuardrailEngine
  import opened PolicyDispatch
  import opened Runtime
  import opened Orchestrator
  import opened Protocol
  import ContactCap

  function WithBaseline(e: Event): Event {
    match e
    case FailureReported(category, rebill, _, now) => FailureReported(category, rebill, Baseline, now)
    case WaitDone(i, _, now) => WaitDone(i, Baseline, now)
    case _ => e
  }

  function BaselineRun(steps: seq<Step>): (r: seq<Step>)
    ensures |r| == |steps|
  {
    if steps == [] then [] else [Step(WithBaseline(steps[0].event), steps[0].at)] + BaselineRun(steps[1..])
  }

  /** A completed wait is flushed before the policy looks, so there even a raising recommendation is harmless. */
  predicate DecidesAsBaseline(e: Event) {
    match e
    case FailureReported(_, _, mode, _) => ActsAsBaseline(mode)
    case WaitDone(_, mode, _) => ActsAsBaseline(mode) || mode.Shadow?
    case _ => true
  }

  lemma DecideRefinesBaseline(s: Case, cause: Cause, seen: Seen, mode: Mode, cfg: Settings, now: int, at: int)
    requires ActsAsBaseline(mode) || (mode.Shadow? && seen == Seen(s.actions, s.failures))
    ensures Decide(s, cause, seen, mode, cfg, now, at) == Decide(s, cause, seen, Baseline, cfg, now, at)
  {
    if ActsAsBaseline(mode) {
      FallbackModesDecideLikeBaseline(mode, SessionOn(s, seen), cfg, now);
    } else {
      assert Flush(SessionOn(s, seen)) == SessionOn(s, seen);
    }
  }

  lemma StepRefinesBaseline(s: Case, step: Step, cfg: Settings)
    requires DecidesAsBaseline(step.event)
    ensures IsEnabled(s, step) <==> IsEnabled(s, Step(WithBaseline(step.event), step.at))
    ensures IsEnabled(s, step) ==> Apply(s, step, cfg) == Apply(s, Step(WithBaseline(step.event), step.at), cfg)
  {
    match step.event
    case FailureReported(category, rebill, mode, now) =>
      var d := Diagnosis(s, category, rebill);
      DecideRefinesBaseline(d, ByFailure, Seen(s.actions, s.failures), mode, cfg, now, step.at);
    case WaitDone(i, mode, now) =>
      if HasAction(s, i) {
        var w := WaitedCase(s, i);
        DecideRefinesBaseline(w, ByWait, Seen(w.actions, w.failures), mode, cfg, now, step.at);
      }
    case _ =>
  }

  /**
    Shadow mode, whatever happens while it scores, and adaptive mode with a model that always fails
    go through exactly the runs of the baseline: same cases, actions, statuses and times.
   */
  lemma {:induction false} RunsRefineBaseline(s: Case, steps: seq<Step>, t: Case, cfg: Settings)
    requires forall k :: 0 <= k < |steps| ==> DecidesAsBaseline(steps[k].event)
    ensures IsRun(s, steps, t, cfg) <==> IsRun(s, BaselineRun(steps), t, cfg)
    decreases steps
  {
    if steps != [] {
      StepRefinesBaseline(s, steps[0], cfg);
      assert BaselineRun(steps)[1..] == BaselineRun(steps[1..]);
      if IsEnabled(s, steps[0]) {
        RunsRefineBaseline(Apply(s, steps[0], cfg), steps[1..], t, cfg);
      }
    }
  }

  lemma OpeningRefinesBaseline(o: Opening, cfg: Settings)
    requires ActsAsBaseline(o.mode)
    ensures Opened(o, cfg) == Opened(o.(mode := Baseline), cfg)
  {
    var start := Case(Diagnosed, if o.amount.Some? then o.amount.value else 0, o.currency, o.category, None,
                      o.subscriptionLinked, [], [], 1, [], [], o.at);
    DecideRefinesBaseline(start, ByFailure, Seen([], 0), o.mode, cfg, o.now, o.at);
  }

  // ---- The shadow error path ----

  lemma FlushKeepsCompletedWaits(rows: seq<Action>, kind: ActionType)
    ensures WaitCompleted(CancelScheduled(rows), kind) <==> WaitCompleted(rows, kind)
  {
    var c := CancelScheduled(rows);
    if WaitCompleted(rows, kind) {
      var i :| 0 <= i < |rows| && rows[i].kind == kind && rows[i].status.Executed?;
      assert c[i].kind == kind && c[i].status.Executed?;
    }
  }

  /** Cancelling what is scheduled only ever lifts contact limits. */
  lemma FlushOnlyFreesContacts(rows: seq<Action>, amount: int, g: Guardrails, now: int)
    ensures ContactAllowed(rows, amount, g, now) ==> ContactAllowed(CancelScheduled(rows), amount, g, now)
  {
    var c := CancelScheduled(rows);
    ContactCap.SubsetIsSmaller(Contacts(c), Contacts(rows));
    ContactCap.SubsetIsSmaller(RecentContacts(c, now), RecentContacts(rows, now));
  }

  /** Only a contact still waiting blocks the next one, and the category would turn to it. */
  predicate FlushFreesContact(rows: seq<Action>, amount: int, category: Category, g: Guardrails, now: int) {
    && !ContactAllowed(rows, amount, g, now)
    && ContactAllowed(CancelScheduled(rows), amount, g, now)
    && (category.CustomerAuthentication? || category.InvalidInstrument? || category.MandateIssue?
        || (category.InsufficientBalance? && WaitCompleted(rows, Wait)))
  }

  lemma FlushedChoiceDiffersExactly(
    s: Case, category: Category, rebill: Option<Rebill>, scorer: Scorer, cfg: Settings, now: int)
    ensures var d, g := Diagnosis(s, category, rebill), cfg.guardrails;
            var seen, flushed := Seen(s.actions, s.failures), Seen(d.actions, d.failures);
            Choice(Shadow(false, scorer), seen, flushed, SubjectOf(d), cfg, now)
            == Choice(Baseline, seen, flushed, SubjectOf(d), cfg, now)
            <==> || s.failures > g.maxTotalAttempts
                 || (s.failures < g.maxTotalAttempts && !FlushFreesContact(s.actions, d.amount, category, g, now))
  {
    var d, g := Diagnosis(s, category, rebill), cfg.guardrails;
    assert d.actions == CancelScheduled(s.actions) && d.failures == s.failures + 1;
    BaselineClosedForm(category, s.actions, d.amount, g, now);
    BaselineClosedForm(category, d.actions, d.amount, g, now);
    FlushKeepsCompletedWaits(s.actions, Wait);
    FlushKeepsCompletedWaits(s.actions, WaitForNativeRetry);
    FlushOnlyFreesContacts(s.actions, d.amount, g, now);
  }

  /** The failure reaches the policy: the case is open for it and holds no open promise. */
  predicate IsRediagnosed(s: Case, rebill: Option<Rebill>) {
    (rebill.Some? ==> IsOpenForRebill(s.state)) && IsDiagnosable(s.state) && !HasPendingPromise(s.promises)
  }

  /**
    When the scoring code cannot be imported, shadow mode logs an error row, and writing it flushes
    the transaction before the baseline looks: the failure being handled already counts, and its
    cancelled contacts no longer do. On a failure that reaches the policy the step is the baseline
    step exactly when the case does not stand at its last permitted failure and the flush frees no
    contact.
   */
  lemma ShadowErrorIsHarmlessExactly(
    s: Case, category: Category, rebill: Option<Rebill>, scorer: Scorer, cfg: Settings, now: int, at: int)
    ensures var shadow := HandleFailure(s, category, rebill, Shadow(false, scorer), cfg, now, at);
            var baseline := HandleFailure(s, category, rebill, Baseline, cfg, now, at);
            var amount, g := Diagnosis(s, category, rebill).amount, cfg.guardrails;
            shadow == baseline <==>
            || !IsRediagnosed(s, rebill)
            || s.failures > g.maxTotalAttempts
            || (s.failures < g.maxTotalAttempts && !FlushFreesContact(s.actions, amount, category, g, now))
  {
    FlushedChoiceDiffersExactly(s, category, rebill, scorer, cfg, now);
    if IsRediagnosed(s, rebill) {
      var d := Diagnosis(s, category, rebill);
      var seen, flushed := Seen(s.actions, s.failures), Seen(d.actions, d.failures);
      var a := Choice(Shadow(false, scorer), seen, flushed, SubjectOf(d), cfg, now);
      var b := Choice(Baseline, seen, flushed, SubjectOf(d), cfg, now);
      if a != b {
        DifferentChoicesDiffer(d, a, b, cfg, now, at);
      }
    }
  }

  lemma DifferentChoicesDiffer(s: Case, a: ActionType, b: ActionType, cfg: Settings, now: int, at: int)
    requires a != b
    ensures RecordDecision(s, a, ByFailure, cfg, now, at) != RecordDecision(s, b, ByFailure, cfg, now, at)
  {
    var n := |s.decisions|;
    assert RecordDecision(s, a, ByFailure, cfg, now, at).decisions[n].chosen == a;
    assert RecordDecision(s, b, ByFailure, cfg, now, at).decisions[n].chosen == b;
  }
}
