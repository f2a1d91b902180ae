/** ml_policy.py and policy_dispatcher.py: which action a diagnosed case gets in each mode. */
module PolicyDispatch {
  import opened Rows
  import opened GuardrailEngine
  import opened Ranking

  datatype Model = NotTrained | Trained(probability: ActionType -> real)

  /** Scoring for shadow mode may also die of anything else, at any point. */
  datatype Scorer = Crashing | Working(model: Model)

  /** Shadow mode first imports the scoring code, which can fail too. */
  datatype Mode = Baseline | Shadow(importable: bool, scorer: Scorer) | Adaptive(model: Model)

  /** What `shadow_recommend` hands back: its suggestion, or its own error record. */
  datatype Recommendation = Suggested(kind: ActionType) | Errored

  /** The case columns a decision reads. */
  datatype Subject = Subject(amount: int, category: Category, subscriptionLinked: bool)

  function SubjectOf(s: Case): Subject { Subject(s.amount, s.category, s.subscriptionLinked) }

  function Rupees(paise: int): real { paise as real / 100.0 }

  function AllowedActions(kinds: seq<ActionType>, rows: seq<Action>, amount: int, g: Guardrails,
      now: int): seq<ActionType> {
    if kinds == [] then [] else
      var rest := AllowedActions(kinds[1..], rows, amount, g, now);
      if Allowed(rows, amount, kinds[0], g, now) then [kinds[0]] + rest else rest
  }

  predicate MakesSense(kind: ActionType, who: Subject) {
    kind.WaitForNativeRetry? ==> who.subscriptionLinked || who.category.SubscriptionPendingNativeRetry?
  }

  function Sensible(kinds: seq<ActionType>, who: Subject): seq<ActionType> {
    if kinds == [] then [] else
      var rest := Sensible(kinds[1..], who);
      if MakesSense(kinds[0], who) then [kinds[0]] + rest else rest
  }

  /** `_feasible_actions`: the semantic filter, unless it would leave nothing. */
  function Feasible(rows: seq<Action>, who: Subject, g: Guardrails, now: int): seq<ActionType> {
    var allowed := AllowedActions(ALL_ACTIONS, rows, who.amount, g, now);
    var sensible := Sensible(allowed, who);
    if sensible == [] then allowed else sensible
  }

  predicate ValidProbabilities(kinds: seq<ActionType>, model: ActionType -> real) {
    forall k :: k in kinds ==> 0.0 <= Probability(model, k) <= 1.0
  }

  /** `_adaptive_choose`, or None where it raises ModelNotTrainedError. */
  function AdaptiveChoice(seen: Seen, who: Subject, cfg: Settings, model: Model, now: int): Option<ActionType> {
    var kinds := Feasible(seen.rows, who, cfg.guardrails, now);
    if model.NotTrained? || !ValidProbabilities(kinds, model.probability) then None
    else Some(Top(kinds, model.probability, Rupees(who.amount), |Contacts(seen.rows)|, cfg.frictionWeight))
  }

  // ---- The dispatcher on the session of its caller ----

  /** The case as the unit of work holds it, what its queries see, and what a flush would let them see. */
  datatype Session = Session(state: CaseState, who: Subject, visible: Seen, pending: Seen)

  function SessionOn(s: Case, visible: Seen): Session {
    Session(s.state, SubjectOf(s), visible, Seen(s.actions, s.failures))
  }

  function Flush(x: Session): Session { x.(visible := x.pending) }

  function Recommended(x: Session, scorer: Scorer, cfg: Settings, now: int): Recommendation {
    if scorer.Crashing? then Errored
    else match AdaptiveChoice(x.visible, x.who, cfg, scorer.model, now)
      case Some(kind) => Suggested(kind)
      case None => Errored
  }

  /** `shadow_recommend`: borrow the DIAGNOSED state, rank on the unflushed session, catch everything, restore. */
  function ShadowRecommend(x: Session, scorer: Scorer, cfg: Settings, now: int): (Session, Recommendation) {
    var y := if x.state.Diagnosed? then x else x.(state := Diagnosed);
    var recommendation := Recommended(y, scorer, cfg, now);
    (if x.state.Diagnosed? then y else y.(state := x.state), recommendation)
  }

  /** `decide`, or None where it refuses to decide. */
  function BaselineDecision(x: Session, cfg: Settings, now: int): Option<ActionType> {
    if !x.state.Diagnosed? then None
    else Some(BaselineChoice(x.visible, x.who.amount, x.who.category, cfg.guardrails, now))
  }

  /** `_decide_shadow`: what raises outside `shadow_recommend` is logged, and the log row flushes the session. */
  function ShadowDecision(x: Session, importable: bool, scorer: Scorer, cfg: Settings, now: int): Option<ActionType> {
    var y := if importable then ShadowRecommend(x, scorer, cfg, now).0 else Flush(x);
    BaselineDecision(y, cfg, now)
  }

  /** `_decide_adaptive` with `decide_ml`: a model failure puts the case back and falls back to the baseline. */
  function AdaptiveDecision(x: Session, model: Model, cfg: Settings, now: int): Option<ActionType> {
    if !x.state.Diagnosed? then None
    else
      var y := x.(state := DecisionReady);
      if y.visible.failures > cfg.guardrails.maxTotalAttempts then Some(Stop)
      else match AdaptiveChoice(y.visible, y.who, cfg, model, now)
        case Some(kind) => Some(kind)
        case None => BaselineDecision(if y.state.DecisionReady? then y.(state := Diagnosed) else y, cfg, now)
  }

  /** `decide_for_case`. */
  function Dispatch(mode: Mode, x: Session, cfg: Settings, now: int): Option<ActionType> {
    match mode
    case Baseline => BaselineDecision(x, cfg, now)
    case Shadow(importable, scorer) => ShadowDecision(x, importable, scorer, cfg, now)
    case Adaptive(model) => AdaptiveDecision(x, model, cfg, now)
  }

  /** The dispatcher in closed form, for a DIAGNOSED case. */
  function Choice(mode: Mode, seen: Seen, flushed: Seen, who: Subject, cfg: Settings, now: int): ActionType {
    var baseline := BaselineChoice(seen, who.amount, who.category, cfg.guardrails, now);
    match mode
    case Baseline => baseline
    case Shadow(importable, _) =>
      if importable then baseline else BaselineChoice(flushed, who.amount, who.category, cfg.guardrails, now)
    case Adaptive(model) =>
      if seen.failures > cfg.guardrails.maxTotalAttempts then Stop
      else match AdaptiveChoice(seen, who, cfg, model, now)
        case Some(kind) => kind
        case None => baseline
  }

  // ---- Feasible sets ----

  lemma {:induction false} AllowedActionsAreAllowed(
    kinds: seq<ActionType>, rows: seq<Action>, amount: int, g: Guardrails, now: int, k: ActionType)
    ensures k in AllowedActions(kinds, rows, amount, g, now) <==> k in kinds && Allowed(rows, amount, k, g, now)
  {
    if kinds != [] {
      AllowedActionsAreAllowed(kinds[1..], rows, amount, g, now, k);
      assert k in kinds <==> k == kinds[0] || k in kinds[1..];
    }
  }

  lemma {:induction false} SensibleActionsMakeSense(kinds: seq<ActionType>, who: Subject, k: ActionType)
    ensures k in Sensible(kinds, who) <==> k in kinds && MakesSense(k, who)
  {
    if kinds != [] {
      SensibleActionsMakeSense(kinds[1..], who, k);
      assert k in kinds <==> k == kinds[0] || k in kinds[1..];
    }
  }

  lemma EveryActionIsListed(k: ActionType)
    ensures k in ALL_ACTIONS <==> k != FollowUpPtp
  {
    assert ALL_ACTIONS[0] == Wait && ALL_ACTIONS[1] == WaitForNativeRetry && ALL_ACTIONS[2] == CreatePaymentLink;
    assert ALL_ACTIONS[3] == ContactCustomer && ALL_ACTIONS[4] == CollectPromiseToPay;
    assert ALL_ACTIONS[5] == Escalate && ALL_ACTIONS[6] == Stop;
  }

  /**
    The adaptive policy ranks exactly the actions the guardrails permit, a follow-up never among
    them, and a native retry only for a subscription. ESCALATE is always among them, so the set is
    never empty.
   */
  lemma FeasibleExactly(rows: seq<Action>, who: Subject, g: Guardrails, now: int, k: ActionType)
    ensures k in Feasible(rows, who, g, now) <==>
            && k != FollowUpPtp && Permitted(rows, who.amount, k, g, now)
            && (k == WaitForNativeRetry ==> who.subscriptionLinked || who.category == SubscriptionPendingNativeRetry)
    ensures k in Feasible(rows, who, g, now) <==>
            k in ALL_ACTIONS && Allowed(rows, who.amount, k, g, now) && MakesSense(k, who)
    ensures Escalate in Feasible(rows, who, g, now)
  {
    var allowed := AllowedActions(ALL_ACTIONS, rows, who.amount, g, now);
    AllowedExactly(rows, who.amount, k, g, now);
    EveryActionIsListed(k);
    assert ALL_ACTIONS[5] == Escalate;
    AllowedActionsAreAllowed(ALL_ACTIONS, rows, who.amount, g, now, k);
    AllowedActionsAreAllowed(ALL_ACTIONS, rows, who.amount, g, now, Escalate);
    SensibleActionsMakeSense(allowed, who, k);
    SensibleActionsMakeSense(allowed, who, Escalate);
  }

  lemma {:induction false} FilterKeepsPolicyOrder(kinds: seq<ActionType>, rows: seq<Action>, who: Subject,
      g: Guardrails, now: int)
    requires InPolicyOrder(kinds)
    ensures InPolicyOrder(AllowedActions(kinds, rows, who.amount, g, now))
    ensures InPolicyOrder(Sensible(kinds, who))
  {
    if kinds != [] {
      FilterKeepsPolicyOrder(kinds[1..], rows, who, g, now);
      forall k | k in AllowedActions(kinds[1..], rows, who.amount, g, now) ensures Place(kinds[0]) < Place(k) {
        AllowedActionsAreAllowed(kinds[1..], rows, who.amount, g, now, k);
      }
      forall k | k in Sensible(kinds[1..], who) ensures Place(kinds[0]) < Place(k) {
        SensibleActionsMakeSense(kinds[1..], who, k);
      }
    }
  }

  lemma FeasibleInPolicyOrder(rows: seq<Action>, who: Subject, g: Guardrails, now: int)
    ensures InPolicyOrder(Feasible(rows, who, g, now))
  {
    FilterKeepsPolicyOrder(ALL_ACTIONS, rows, who, g, now);
    FilterKeepsPolicyOrder(AllowedActions(ALL_ACTIONS, rows, who.amount, g, now), rows, who, g, now);
  }

  /**
    With a usable model the adaptive choice passes every guardrail, and no other feasible
    action comes before it by utility, expected value and position.
   */
  lemma AdaptiveChoiceIsBestFeasible(seen: Seen, who: Subject, cfg: Settings, model: Model, now: int, other: ActionType)
    requires AdaptiveChoice(seen, who, cfg, model, now).Some?
    requires other in ALL_ACTIONS && Allowed(seen.rows, who.amount, other, cfg.guardrails, now)
        && MakesSense(other, who)
    ensures var best := AdaptiveChoice(seen, who, cfg, model, now).value;
            var contacts := |Outreach(seen.rows)|;
            && best in ALL_ACTIONS && MakesSense(best, who)
            && Allowed(seen.rows, who.amount, best, cfg.guardrails, now)
            && (best == other ||
                Precedes(Utility, Score(best, model.probability, Rupees(who.amount), contacts, cfg.frictionWeight),
                                  Score(other, model.probability, Rupees(who.amount), contacts, cfg.frictionWeight)))
  {
    var best := AdaptiveChoice(seen, who, cfg, model, now).value;
    var kinds := Feasible(seen.rows, who, cfg.guardrails, now);
    FeasibleExactly(seen.rows, who, cfg.guardrails, now, other);
    FeasibleInPolicyOrder(seen.rows, who, cfg.guardrails, now);
    assert Outreach(seen.rows) == Contacts(seen.rows);
    TopIsUniqueMaximum(kinds, model.probability, Rupees(who.amount), |Contacts(seen.rows)|, cfg.frictionWeight);
    FeasibleExactly(seen.rows, who, cfg.guardrails, now, best);
  }

  /**
    There is an adaptive choice exactly with a trained model that gives every feasible action a
    probability; STOP is scored without asking it.
   */
  lemma AdaptiveChoiceExistsExactly(seen: Seen, who: Subject, cfg: Settings, model: Model, now: int)
    ensures AdaptiveChoice(seen, who, cfg, model, now).Some? <==>
            && model.Trained?
            && forall k :: k in Feasible(seen.rows, who, cfg.guardrails, now) && k != Stop ==>
                 0.0 <= model.probability(k) <= 1.0
  {
    if model.Trained? {
      assert forall k :: k != Stop ==> Probability(model.probability, k) == model.probability(k);
    }
  }

  /** STOP is always feasible and worth nothing, so the adaptive policy never chooses an action worth less. */
  lemma AdaptiveChoicePaysForItself(seen: Seen, who: Subject, cfg: Settings, model: Model, now: int)
    requires AdaptiveChoice(seen, who, cfg, model, now).Some?
    ensures var best := AdaptiveChoice(seen, who, cfg, model, now).value;
            PaysForItself(best, model.probability, who.amount as real / 100.0, |Outreach(seen.rows)|,
                cfg.frictionWeight)
  {
    var best := AdaptiveChoice(seen, who, cfg, model, now).value;
    assert ALL_ACTIONS[6] == Stop;
    AdaptiveChoiceIsBestFeasible(seen, who, cfg, model, now, Stop);
    BeatingStopPays(best, model.probability, Rupees(who.amount), |Outreach(seen.rows)|, cfg.frictionWeight);
  }

  /** In every mode the choice respects the stopping rule and the guardrails of the rows it looked at. */
  lemma ChoiceIsGuarded(mode: Mode, seen: Seen, flushed: Seen, who: Subject, cfg: Settings, now: int)
      returns (view: Seen)
    ensures view == seen || view == flushed
    ensures var c := Choice(mode, seen, flushed, who, cfg, now);
            && (view.failures > cfg.guardrails.maxTotalAttempts ==> c == Stop)
            && (c == Stop || Allowed(view.rows, who.amount, c, cfg.guardrails, now))
            && c != FollowUpPtp
  {
    view := if mode.Shadow? && !mode.importable then flushed else seen;
    var k := FirstAllowedPosition(Candidates(who.category), view.rows, who.amount, cfg.guardrails, now);
    if mode.Adaptive? && AdaptiveChoice(seen, who, cfg, mode.model, now).Some? {
      FeasibleExactly(seen.rows, who, cfg.guardrails, now, Escalate);
      assert ALL_ACTIONS[5] == Escalate;
      AdaptiveChoiceIsBestFeasible(seen, who, cfg, mode.model, now, Escalate);
    }
  }

  // ---- Modes that must behave like the baseline ----

  /** A recommendation leaves the whole session as it found it, from any state and whatever goes wrong in it. */
  lemma ShadowRecommendLeavesNoTrace(x: Session, scorer: Scorer, cfg: Settings, now: int)
    ensures ShadowRecommend(x, scorer, cfg, now).0 == x
  {
  }

  /** No model, or one whose prediction for ESCALATE, which is always ranked, is no probability. */
  predicate AlwaysFails(model: Model) { model.NotTrained? || !(0.0 <= model.probability(Escalate) <= 1.0) }

  lemma FailingModelsNeverChoose(seen: Seen, who: Subject, cfg: Settings, model: Model, now: int)
    requires AlwaysFails(model)
    ensures AdaptiveChoice(seen, who, cfg, model, now) == None
  {
    FeasibleExactly(seen.rows, who, cfg.guardrails, now, Escalate);
    assert model.Trained? ==> Probability(model.probability, Escalate) == model.probability(Escalate);
  }

  /** Shadow mode, whatever happens while it scores, and adaptive mode with a model that always fails. */
  predicate ActsAsBaseline(mode: Mode) {
    match mode
    case Baseline => true
    case Shadow(importable, _) => importable
    case Adaptive(model) => AlwaysFails(model)
  }

  /** Those modes decide exactly when, and exactly what, the baseline decides on the same session. */
  lemma FallbackModesDecideLikeBaseline(mode: Mode, x: Session, cfg: Settings, now: int)
    requires ActsAsBaseline(mode)
    ensures Dispatch(mode, x, cfg, now) == Dispatch(Baseline, x, cfg, now)
  {
    match mode
    case Baseline =>
    case Shadow(_, scorer) => ShadowRecommendLeavesNoTrace(x, scorer, cfg, now);
    case Adaptive(model) =>
      FailingModelsNeverChoose(x.visible, x.who, cfg, model, now);
      var stop := BaselineDecision(x, cfg, now);
      assert x.visible.failures > cfg.guardrails.maxTotalAttempts && x.state.Diagnosed? ==> stop == Some(Stop);
  }
}
