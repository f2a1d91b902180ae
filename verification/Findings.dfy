/** The inputs behind the findings: reachable cases and arising worlds on which a promise fails. */
module Findings {
  import opened Rows
  import opened GuardrailEngine
  import opened PolicyDispatch
  import opened Runtime
  import opened Orchestrator
  import opened Protocol
  import opened Runs
  import CaseColumns
  import LiveAction
  import opened Provider
  import opened Workers
  import opened ProviderAgreement
  import opened ProviderCap

  /** The defaults of the configuration; Asia/Kolkata is five and a half hours ahead. */
  const DEFAULTS: Settings := Settings(DEFAULT_GUARDRAILS, 3600, 86400, 3, 60, 300, 19800 * SECOND, 18.0)

  // ---- Building runs step by step ----

  lemma {:induction false} WorldRunThenMove(w: World, moves: seq<Move>, v: World, m: Move, cfg: Settings,
      caseId: string)
    requires IsWorldRun(w, moves, v, cfg, caseId) && CanMove(v, m)
    ensures IsWorldRun(w, moves + [m], Next(v, m, cfg, caseId), cfg, caseId)
    decreases moves
  {
    if moves == [] {
      assert ([] + [m])[1..] == [];
      assert IsWorldRun(Next(v, m, cfg, caseId), [], Next(v, m, cfg, caseId), cfg, caseId);
    } else {
      WorldRunThenMove(Next(w, moves[0], cfg, caseId), moves[1..], v, m, cfg, caseId);
      assert (moves + [m])[1..] == moves[1..] + [m];
    }
  }

  // ---- A first case with one contact ----

  function FirstOpening(category: Category): Opening {
    Opening(category, Some(100_000), "INR", true, false, Baseline, 0, 0)
  }

  function FirstAction(kind: ActionType): Action { Action(kind, Scheduled, 0, 0, None, 0, 3, None, None, 0) }

  function FirstCase(kind: ActionType, category: Category): Case {
    Case(ActionScheduled, 100_000, "INR", category, None, true, [FirstAction(kind)], [], 1,
         [Decision(kind, ByFailure)], [], 0)
  }

  lemma NoRowsAllowContact(now: int)
    ensures ContactAllowed([], 100_000, DEFAULT_GUARDRAILS, now)
  {
    assert Contacts([]) == {};
    assert RecentContacts([], now) == {};
  }

  lemma FirstCaseOpens()
    ensures Opened(FirstOpening(InvalidInstrument), DEFAULTS) == FirstCase(CreatePaymentLink, InvalidInstrument)
    ensures Opened(FirstOpening(CustomerAuthentication), DEFAULTS) == FirstCase(ContactCustomer, CustomerAuthentication)
  {
    NoRowsAllowContact(0);
    BaselineClosedForm(InvalidInstrument, [], 100_000, DEFAULT_GUARDRAILS, 0);
    BaselineClosedForm(CustomerAuthentication, [], 100_000, DEFAULT_GUARDRAILS, 0);
    OpensWith(InvalidInstrument, CreatePaymentLink);
    OpensWith(CustomerAuthentication, ContactCustomer);
  }

  lemma OpensWith(category: Category, kind: ActionType)
    requires FirstAllowed(Candidates(category), [], 100_000, DEFAULT_GUARDRAILS, 0) == kind && IsContact(kind)
    ensures Opened(FirstOpening(category), DEFAULTS) == FirstCase(kind, category)
  {
  }

  function ClaimedCase(): Case {
    FirstCase(CreatePaymentLink, InvalidInstrument).(
      clock := 1,
      actions := [FirstAction(CreatePaymentLink).(status := Executing, claimedAt := Some(1), attempts := 1)])
  }

  lemma FirstClaim()
    ensures Apply(FirstCase(CreatePaymentLink, InvalidInstrument), Step(ClaimDue(0, 1), 1), DEFAULTS) == ClaimedCase()
  {
    assert !IsSuperseded(FirstCase(CreatePaymentLink, InvalidInstrument).actions, 0);
  }

  lemma ClaimedCaseIsReached()
    ensures Reachable(ClaimedCase(), DEFAULTS)
  {
    FirstCaseOpens();
    OpenedIsReachable(FirstOpening(InvalidInstrument), DEFAULTS);
    FirstClaim();
    ReachableNext(FirstCase(CreatePaymentLink, InvalidInstrument), Step(ClaimDue(0, 1), 1), DEFAULTS);
  }

  // ---- A terminal case moves ----

  /** A disputed case is reached with a link action still EXECUTING, and a mismatch write sends it to review. */
  lemma MismatchReopensDispute() returns (s: Case, step: Step)
    ensures Reachable(s, DEFAULTS) && s.state.Disputed? && IsEnabled(s, step) && step.event == LinkMismatch(0)
    ensures Apply(s, step, DEFAULTS).state.HumanReview?
  {
    ClaimedCaseIsReached();
    ReachableNext(ClaimedCase(), Step(DisputeOpened, 2), DEFAULTS);
    s := Apply(ClaimedCase(), Step(DisputeOpened, 2), DEFAULTS);
    step := Step(LinkMismatch(0), 3);
  }

  // ---- Shadow mode differs ----

  /**
    A second failure soon after the first, while the first contact is still waiting: the baseline
    escalates, and shadow mode that cannot import the scoring code contacts the customer again.
   */
  lemma ShadowErrorCanDiffer(scorer: Scorer) returns (s: Case)
    ensures Reachable(s, DEFAULTS)
    ensures var failure := (mode: Mode) => Step(FailureReported(CustomerAuthentication, None, mode, 1), 1);
            && IsEnabled(s, failure(Baseline)) && IsEnabled(s, failure(Shadow(false, scorer)))
            && Apply(s, failure(Baseline), DEFAULTS).state.HumanReview?
            && Apply(s, failure(Shadow(false, scorer)), DEFAULTS).state.ActionScheduled?
  {
    FirstCaseOpens();
    OpenedIsReachable(FirstOpening(CustomerAuthentication), DEFAULTS);
    s := FirstCase(ContactCustomer, CustomerAuthentication);
    SecondFailure(scorer);
  }

  lemma SecondFailure(scorer: Scorer)
    ensures var s := FirstCase(ContactCustomer, CustomerAuthentication);
            && HandleFailure(s, CustomerAuthentication, None, Baseline, DEFAULTS, 1, 1).state == StateFor(Escalate)
            && HandleFailure(s, CustomerAuthentication, None, Shadow(false, scorer), DEFAULTS, 1, 1).state
               == StateFor(ContactCustomer)
  {
    var s := FirstCase(ContactCustomer, CustomerAuthentication);
    WaitingContactBlocks(FirstAction(ContactCustomer));
    BaselineClosedForm(CustomerAuthentication, s.actions, s.amount, DEFAULT_GUARDRAILS, 1);
    BaselineClosedForm(CustomerAuthentication, CancelScheduled(s.actions), s.amount, DEFAULT_GUARDRAILS, 1);
    assert Diagnosis(s, CustomerAuthentication, None).actions == CancelScheduled(s.actions);
  }

  lemma WaitingContactBlocks(a: Action)
    requires a == FirstAction(ContactCustomer)
    ensures !ContactAllowed([a], 100_000, DEFAULT_GUARDRAILS, 1)
    ensures ContactAllowed(CancelScheduled([a]), 100_000, DEFAULT_GUARDRAILS, 1)
  {
    assert 0 in Contacts([a]);
    assert Contacts(CancelScheduled([a])) == {};
    assert RecentContacts(CancelScheduled([a]), 1) == {};
  }

  // ---- Payments of older links ----

  /** The case after its two links were executed thirteen hours apart. */
  function TwoLinks(): Case {
    var first := FirstAction(CreatePaymentLink).(status := Executed, claimedAt := Some(1), attempts := 1,
        link := Some("first"));
    var second := Action(CreatePaymentLink, Executed, 13 * HOUR, 13 * HOUR, Some(13 * HOUR), 1, 3, None,
        Some("second"), 0);
    Case(AwaitingOutcome, 100_000, "INR", InvalidInstrument, Some("second"), true, [first, second], [], 2,
         [Decision(CreatePaymentLink, ByFailure), Decision(CreatePaymentLink, ByFailure)], [0, 1], 13 * HOUR + 2)
  }

  function OneLink(): Case {
    FirstCase(CreatePaymentLink, InvalidInstrument).(
      state := AwaitingOutcome, link := Some("first"), effects := [0], clock := 2,
      actions := [FirstAction(CreatePaymentLink).(status := Executed, claimedAt := Some(1), attempts := 1,
          link := Some("first"))])
  }

  lemma OneLinkIsReached()
    ensures Reachable(OneLink(), DEFAULTS)
  {
    ClaimedCaseIsReached();
    FirstCompletion();
    ReachableNext(ClaimedCase(), Step(ExternalDone(0, Some("first")), 2), DEFAULTS);
  }

  lemma FirstCompletion()
    ensures Apply(ClaimedCase(), Step(ExternalDone(0, Some("first")), 2), DEFAULTS) == OneLink()
  {
    assert !IsSuperseded(ClaimedCase().actions, 0);
  }

  lemma SecondContactIsAllowed()
    ensures ContactAllowed(OneLink().actions, 100_000, DEFAULT_GUARDRAILS, 13 * HOUR)
  {
    var rows := OneLink().actions;
    assert Contacts(rows) == {0};
    assert |RecentContacts(rows, 13 * HOUR)| <= 1 by {
      assert RecentContacts(rows, 13 * HOUR) == {0};
    }
  }

  function SecondDecided(): Case {
    OneLink().(state := ActionScheduled, failures := 2, clock := 13 * HOUR,
      actions := OneLink().actions + [Action(CreatePaymentLink, Scheduled, 13 * HOUR, 13 * HOUR, None, 0, 3, None,
          None, 0)],
      decisions := [Decision(CreatePaymentLink, ByFailure), Decision(CreatePaymentLink, ByFailure)])
  }

  lemma SecondFailureDecides()
    ensures Apply(OneLink(), Step(FailureReported(InvalidInstrument, None, Baseline, 13 * HOUR), 13 * HOUR), DEFAULTS)
         == SecondDecided()
  {
    var s := OneLink();
    SecondContactIsAllowed();
    BaselineClosedForm(InvalidInstrument, s.actions, s.amount, DEFAULT_GUARDRAILS, 13 * HOUR);
    assert CancelScheduled(s.actions) == s.actions;
    var t := HandleFailure(s, InvalidInstrument, None, Baseline, DEFAULTS, 13 * HOUR, 13 * HOUR);
    assert t.actions == SecondDecided().actions && t.decisions == SecondDecided().decisions;
  }

  /** A case with two executed links takes the payment of the second, and ignores that of the first. */
  lemma OlderLinkIsPaidForNothing()
    ensures Reachable(TwoLinks(), DEFAULTS)
    ensures var s, at := TwoLinks(), 14 * HOUR;
            && Apply(s, Step(LinkPaid("first"), at), DEFAULTS) == s.(clock := at)
            && Apply(s, Step(LinkPaid("second"), at), DEFAULTS).state.Recovered?
  {
    SecondLinkIsReached();
  }

  lemma SecondLinkIsReached()
    ensures Reachable(TwoLinks(), DEFAULTS)
  {
    OneLinkIsReached();
    SecondFailureDecides();
    ReachableNext(OneLink(), Step(FailureReported(InvalidInstrument, None, Baseline, 13 * HOUR), 13 * HOUR), DEFAULTS);
    SecondClaim();
    ReachableNext(SecondDecided(), Step(ClaimDue(1, 13 * HOUR), 13 * HOUR + 1), DEFAULTS);
    SecondCompletion();
    ReachableNext(SecondClaimed(), Step(ExternalDone(1, Some("second")), 13 * HOUR + 2), DEFAULTS);
  }

  function SecondClaimed(): Case {
    var row := Action(CreatePaymentLink, Executing, 13 * HOUR, 13 * HOUR, Some(13 * HOUR), 1, 3, None, None, 0);
    SecondDecided().(clock := 13 * HOUR + 1, actions := OneLink().actions + [row])
  }

  lemma SecondClaim()
    ensures Apply(SecondDecided(), Step(ClaimDue(1, 13 * HOUR), 13 * HOUR + 1), DEFAULTS) == SecondClaimed()
  {
    var s := SecondDecided();
    assert !IsSuperseded(s.actions, 1);
    assert Claim(s, 1, 13 * HOUR).actions == SecondClaimed().actions;
  }

  lemma SecondCompletion()
    ensures Apply(SecondClaimed(), Step(ExternalDone(1, Some("second")), 13 * HOUR + 2), DEFAULTS) == TwoLinks()
  {
    var s := SecondClaimed();
    assert !IsSuperseded(s.actions, 1);
    assert CompleteExternal(s, 1, Some("second")).actions == TwoLinks().actions;
    assert CompleteExternal(s, 1, Some("second")).effects == TwoLinks().effects;
  }

  // ---- A create call repeated without a lookup ----

  predicate IsAnsweredLookup(m: Move) { m.Look? && !m.answer.NoAnswer? }

  ghost predicate Gets(moves: seq<Move>, w: World, caseId: string) {
    IsWorldRun(StartWorld(FirstOpening(InvalidInstrument), DEFAULTS), moves, w, DEFAULTS, caseId)
  }

  lemma Onwards(before: seq<Move>, w: World, m: Move, after: seq<Move>, v: World, caseId: string)
    requires Gets(before, w, caseId) && CanMove(w, m)
    requires after == before + [m] && v == Next(w, m, DEFAULTS, caseId)
    ensures Gets(after, v, caseId)
  {
    WorldRunThenMove(StartWorld(FirstOpening(InvalidInstrument), DEFAULTS), before, w, m, DEFAULTS, caseId);
  }

  function ClaimedWorld(): World { World(ClaimedCase(), [], [Claimed(0)], multiset{}) }

  lemma ClaimedWorldArises(caseId: string)
    ensures Gets([Arrive, ClaimBy(0, 0, 1, 1)], ClaimedWorld(), caseId)
  {
    FirstCaseOpens();
    FirstClaim();
    var w0 := StartWorld(FirstOpening(InvalidInstrument), DEFAULTS);
    var w1 := w0.(workers := [Idle]);
    Onwards([], w0, Arrive, [Arrive], w1, caseId);
    Onwards([Arrive], w1, ClaimBy(0, 0, 1, 1), [Arrive, ClaimBy(0, 0, 1, 1)], ClaimedWorld(), caseId);
  }

  function FirstSnapshot(): Snapshot { Snapshot(100_000, "INR") }

  /** The world after the first call timed out, whether or not the provider has made the link. */
  function UnclearWorld(p: Phase, made: bool, caseId: string): World {
    World(ClaimedCase(), if made then [RequestedLink("first", 0, caseId, FirstSnapshot())] else [], [p], multiset{0})
  }

  function CALL(made: bool): seq<Move> {
    [Arrive, ClaimBy(0, 0, 1, 1), Snap(0), Perform(0, Unknown(made), "first")]
  }

  lemma FirstCallIsUnclear(made: bool, caseId: string)
    ensures Gets(CALL(made), UnclearWorld(Ambiguous(0), made, caseId), caseId)
  {
    ClaimedWorldArises(caseId);
    var w2 := ClaimedWorld();
    var w3 := w2.(workers := [Ready(0, FirstSnapshot())]);
    Onwards([Arrive, ClaimBy(0, 0, 1, 1)], w2, Snap(0), [Arrive, ClaimBy(0, 0, 1, 1), Snap(0)], w3, caseId);
    FirstCall(w3, made, caseId);
    Onwards([Arrive, ClaimBy(0, 0, 1, 1), Snap(0)], w3, Perform(0, Unknown(made), "first"), CALL(made),
            UnclearWorld(Ambiguous(0), made, caseId), caseId);
  }

  lemma FirstCall(w: World, made: bool, caseId: string)
    requires w == ClaimedWorld().(workers := [Ready(0, FirstSnapshot())])
    ensures CanMove(w, Perform(0, Unknown(made), "first"))
    ensures Next(w, Perform(0, Unknown(made), "first"), DEFAULTS, caseId) == UnclearWorld(Ambiguous(0), made, caseId)
  {
    assert w.calls + multiset{0} == multiset{0};
    assert !Holds(w.links, 0);
  }

  /** Where the link was made the lookup gets no answer, and where it was not, it says so. */
  function Asked(made: bool): Answer { if made then NoAnswer else Listed }

  /** The worker reloads the case, asks the provider, and schedules a retry either way. */
  function LOOKUP(made: bool): seq<Move> {
    CALL(made) + [Snap(0), Check(0, 2), Look(0, Asked(made)), Finish(0, 2, 2)]
  }

  function RetryWorld(made: bool, caseId: string): World {
    UnclearWorld(Idle, made, caseId).(
      db := FirstCase(CreatePaymentLink, InvalidInstrument).(
        clock := 2,
        actions := [FirstAction(CreatePaymentLink).(attempts := 1, scheduledFor := LATER, backoff := 60)]))
  }

  const LATER: int := 2 + 60 * SECOND

  lemma LookupEndsInRetry(made: bool, caseId: string)
    ensures Gets(LOOKUP(made), RetryWorld(made, caseId), caseId)
  {
    var looking := UnclearWorld(Looking(0, FirstSnapshot(), false), made, caseId);
    LookupBegins(made, caseId);
    Onwards(LOOKUP(made)[..6], looking, Look(0, Asked(made)), LOOKUP(made)[..7],
        UnclearWorld(MustRetry(0), made, caseId), caseId);
    RetryIsScheduled(made, caseId);
    Onwards(LOOKUP(made)[..7], UnclearWorld(MustRetry(0), made, caseId), Finish(0, 2, 2), LOOKUP(made),
        RetryWorld(made, caseId), caseId);
  }

  lemma LookupBegins(made: bool, caseId: string)
    ensures Gets(LOOKUP(made)[..6], UnclearWorld(Looking(0, FirstSnapshot(), false), made, caseId), caseId)
  {
    CaseIsReloaded(made, caseId);
    var reloaded := UnclearWorld(Reloaded(0, FirstSnapshot(), false), made, caseId);
    var looking := UnclearWorld(Looking(0, FirstSnapshot(), false), made, caseId);
    Onwards(LOOKUP(made)[..5], reloaded, Check(0, 2), LOOKUP(made)[..6], looking, caseId);
  }

  lemma CaseIsReloaded(made: bool, caseId: string)
    ensures Gets(LOOKUP(made)[..5], UnclearWorld(Reloaded(0, FirstSnapshot(), false), made, caseId), caseId)
  {
    FirstCallIsUnclear(made, caseId);
    var reloaded := UnclearWorld(Reloaded(0, FirstSnapshot(), false), made, caseId);
    Onwards(CALL(made), UnclearWorld(Ambiguous(0), made, caseId), Snap(0), LOOKUP(made)[..5], reloaded, caseId);
  }

  lemma RetryIsScheduled(made: bool, caseId: string)
    ensures Next(UnclearWorld(MustRetry(0), made, caseId), Finish(0, 2, 2), DEFAULTS, caseId)
        == RetryWorld(made, caseId)
  {
    var s := ClaimedCase();
    assert !IsSuperseded(s.actions, 0);
    assert Pow2(0) == 1 && RetryDelay(DEFAULTS, 1) == 60;
    assert RetryOrFail(s, 0, DEFAULTS, 2).actions == RetryWorld(made, caseId).db.actions;
  }

  function AGAIN(made: bool): seq<Move> {
    LOOKUP(made) + [ClaimBy(0, 0, LATER, LATER), Snap(0), Perform(0, Unknown(false), "second")]
  }

  function AgainWorld(p: Phase, made: bool, caseId: string): World {
    UnclearWorld(p, made, caseId).(
      db := ClaimedCase().(
        clock := LATER,
        actions := [ClaimedCase().actions[0].(attempts := 2, scheduledFor := LATER, claimedAt := Some(LATER),
            backoff := 60)]))
  }

  lemma SecondClaimSucceeds(made: bool, caseId: string)
    ensures Next(RetryWorld(made, caseId), ClaimBy(0, 0, LATER, LATER), DEFAULTS, caseId)
        == AgainWorld(Claimed(0), made, caseId)
  {
    var s := RetryWorld(made, caseId).db;
    assert !IsSuperseded(s.actions, 0);
    assert Claim(s, 0, LATER).actions == AgainWorld(Idle, made, caseId).db.actions;
  }

  lemma AskedOnce(made: bool)
    ensures (exists m :: m in AGAIN(made) && IsAnsweredLookup(m)) <==> !made
  {
    var ms := AGAIN(made);
    assert ms[6] == Look(0, Asked(made)) && ms[6] in ms;
    forall j | 0 <= j < |ms| ensures ms[j].Look? ==> ms[j] == Look(0, Asked(made)) {
    }
    assert !made ==> IsAnsweredLookup(ms[6]);
  }

  /**
    Two runs in which the create call is made twice for one action: in the one no lookup was ever
    answered, in the other the lookup of the earlier attempt was.
   */
  lemma CreateIsRepeatedWithoutLookup(made: bool, caseId: string) returns (w: World)
    ensures Gets(AGAIN(made), w, caseId) && w.calls[0] == 2
    ensures (exists m :: m in AGAIN(made) && IsAnsweredLookup(m)) <==> !made
  {
    LookupEndsInRetry(made, caseId);
    AskedOnce(made);
    SecondClaimSucceeds(made, caseId);
    var ready := AgainWorld(Ready(0, FirstSnapshot()), made, caseId);
    Onwards(LOOKUP(made), RetryWorld(made, caseId), ClaimBy(0, 0, LATER, LATER), AGAIN(made)[..9],
        AgainWorld(Claimed(0), made, caseId), caseId);
    Onwards(AGAIN(made)[..9], AgainWorld(Claimed(0), made, caseId), Snap(0), AGAIN(made)[..10], ready, caseId);
    w := Next(ready, Perform(0, Unknown(false), "second"), DEFAULTS, caseId);
    Onwards(AGAIN(made)[..10], ready, Perform(0, Unknown(false), "second"), AGAIN(made), w, caseId);
  }

  // ---- A link over the automation limit ----

  function BigFailure(): Step {
    Step(FailureReported(InvalidInstrument, Some(Rebill(Some(3_000_000), None)), Baseline, 2), 2)
  }

  function REBILLED(): seq<Move> {
    [Arrive, ClaimBy(0, 0, 1, 1), Commit(BigFailure()), Snap(0), Perform(0, Accepted, "big")]
  }

  /** A rebill between claim and snapshot: the worker asks for a link over the limit. */
  lemma RebillMakesLinkOverLimit(caseId: string) returns (w: World)
    ensures Gets(REBILLED(), w, caseId)
    ensures |w.links| == 1 && w.links[0].amount == Some(3_000_000) && IsOver(3_000_000, DEFAULT_GUARDRAILS)
  {
    RebillBeforeSnapshot(caseId);
    BigFailureRebills();
    var ready := RebilledWorld(Ready(0, SnapshotOf(RebilledWorld(Idle).db)));
    BigCall(ready, caseId);
    w := Next(ready, Perform(0, Accepted, "big"), DEFAULTS, caseId);
    Onwards(REBILLED()[..4], ready, Perform(0, Accepted, "big"), REBILLED(), w, caseId);
  }

  function RebilledWorld(p: Phase): World {
    World(Apply(ClaimedCase(), BigFailure(), DEFAULTS), [], [p], multiset{})
  }

  lemma RebillAfterClaim(caseId: string)
    ensures Gets(REBILLED()[..3], RebilledWorld(Claimed(0)), caseId)
  {
    ClaimedWorldArises(caseId);
    Onwards(REBILLED()[..2], ClaimedWorld(), Commit(BigFailure()), REBILLED()[..3], RebilledWorld(Claimed(0)), caseId);
  }

  lemma RebillBeforeSnapshot(caseId: string)
    ensures Gets(REBILLED()[..4], RebilledWorld(Ready(0, SnapshotOf(RebilledWorld(Idle).db))), caseId)
  {
    RebillAfterClaim(caseId);
    Onwards(REBILLED()[..3], RebilledWorld(Claimed(0)), Snap(0), REBILLED()[..4],
            RebilledWorld(Ready(0, SnapshotOf(RebilledWorld(Idle).db))), caseId);
  }

  lemma BigFailureRebills()
    ensures var t := Apply(ClaimedCase(), BigFailure(), DEFAULTS);
            |t.actions| > 0 && t.actions[0].kind.CreatePaymentLink? && t.amount == 3_000_000
  {
    AmountByRebill(ClaimedCase(), BigFailure(), DEFAULTS);
  }

  lemma BigCall(w: World, caseId: string)
    requires w.links == [] && |w.workers| == 1 && w.workers[0].Ready? && w.workers[0].i == 0
    requires |w.db.actions| > 0 && w.db.actions[0].kind.CreatePaymentLink? && w.workers[0].snap.amount == 3_000_000
    ensures CanMove(w, Perform(0, Accepted, "big"))
    ensures var v := Next(w, Perform(0, Accepted, "big"), DEFAULTS, caseId);
            |v.links| == 1 && v.links[0].amount == Some(3_000_000)
  {
    assert !Holds(w.links, 0);
  }

  function IdleWorld(): World { StartWorld(FirstOpening(InvalidInstrument), DEFAULTS).(workers := [Idle]) }

  lemma IdleWorldIsReady(caseId: string)
    ensures IdleWorld().db == FirstCase(CreatePaymentLink, InvalidInstrument)
    ensures CanMove(IdleWorld(), ClaimBy(0, 0, 1, 1))
    ensures Next(IdleWorld(), ClaimBy(0, 0, 1, 1), DEFAULTS, caseId) == ClaimedWorld()
  {
    FirstCaseOpens();
    FirstClaim();
  }

  lemma IdleWorldIsWithinCap()
    ensures LiveAction.Core(IdleWorld().db) && CaseColumns.AmountWithinCap(IdleWorld().db, DEFAULT_GUARDRAILS)
  {
    OpenedIsReachable(FirstOpening(InvalidInstrument), DEFAULTS);
    ReachableAmountIsWithinCap(IdleWorld().db, DEFAULTS);
  }

  lemma RebillIsTheLast(caseId: string)
    ensures IsWorldRun(ClaimedWorld(), [Commit(BigFailure())], RebilledWorld(Claimed(0)), DEFAULTS, caseId)
    ensures LastRebill(ClaimedWorld(), [Commit(BigFailure())], RebilledWorld(Claimed(0)), DEFAULTS, caseId)
         == Some(3_000_000)
  {
    assert [Commit(BigFailure())][1..] == [];
    assert IsWorldRun(RebilledWorld(Claimed(0)), [], RebilledWorld(Claimed(0)), DEFAULTS, caseId);
    assert IsOpenForRebill(ClaimedCase().state);
  }

  /** The same run by the general condition: the last rebill before the snapshot is over the limit, so the link is. */
  lemma OverLimitAsPredicted(caseId: string)
    ensures var ready := RebilledWorld(Ready(0, SnapshotOf(RebilledWorld(Idle).db)));
            && CanMove(ready, Perform(0, Accepted, "big"))
            && var links := Next(ready, Perform(0, Accepted, "big"), DEFAULTS, caseId).links;
               |links| == 1 && links[0].amount.Some? && IsOver(links[0].amount.value, DEFAULT_GUARDRAILS)
  {
    var ready := RebilledWorld(Ready(0, SnapshotOf(RebilledWorld(Idle).db)));
    IdleWorldIsReady(caseId);
    IdleWorldIsWithinCap();
    RebillIsTheLast(caseId);
    BigFailureRebills();
    BigCall(ready, caseId);
    assert IsWorldRun(ready, [], ready, DEFAULTS, caseId);
    LinkExceedsCapExactly(IdleWorld(), 0, 0, 1, 1, [Commit(BigFailure())], RebilledWorld(Claimed(0)), [], ready,
                          Accepted, "big", DEFAULTS, caseId);
  }
}
