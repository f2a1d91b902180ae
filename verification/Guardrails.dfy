/** policy_engine.py: guardrails, the baseline choice and the recorded action. */
module GuardrailEngine {
  import opened Rows

  /** `_contacts_for_case`: rows a query sees as SCHEDULED or EXECUTED contacts. */
  function Contacts(rows: seq<Action>): set<nat> {
    set i: nat | i < |rows| && IsContact(rows[i].kind)
                 && (rows[i].status.Scheduled? || rows[i].status.Executed?)
  }

  function RecentContacts(rows: seq<Action>, now: int): set<nat> {
    set i | i in Contacts(rows) && rows[i].createdAt >= now - 7 * DAY
  }

  predicate WaitCompleted(rows: seq<Action>, kind: ActionType) {
    exists i :: 0 <= i < |rows| && rows[i].kind == kind && rows[i].status.Executed?
  }

  predicate CooledDown(rows: seq<Action>, g: Guardrails, now: int) {
    forall i :: i in Contacts(rows) ==> now >= rows[i].createdAt + g.minIntervalHours * HOUR
  }

  /** The contact rules: amount, both caps, cooldown. They do not ask which contact it is. */
  predicate ContactAllowed(rows: seq<Action>, amount: int, g: Guardrails, now: int) {
    && amount <= g.maxAutomatedAmount
    && |Contacts(rows)| < g.maxContacts
    && |RecentContacts(rows, now)| < g.maxContactsPerWeek
    && CooledDown(rows, g, now)
  }

  /** `_check_action_allowed`. */
  predicate Allowed(rows: seq<Action>, amount: int, kind: ActionType, g: Guardrails, now: int) {
    && (IsWait(kind) ==> !WaitCompleted(rows, kind))
    && (IsContact(kind) ==> ContactAllowed(rows, amount, g, now))
  }

  // ---- What the rules mean ----

  /** The contacts a case has made or is about to make. */
  function Outreach(rows: seq<Action>): set<nat> {
    set i: nat | i < |rows| && rows[i].kind in {ContactCustomer, CreatePaymentLink, CollectPromiseToPay}
                 && rows[i].status in {Scheduled, Executed}
  }

  function OutreachOfWeek(rows: seq<Action>, to: int): set<nat> {
    set i | i in Outreach(rows) && to - 7 * DAY <= rows[i].createdAt <= to
  }

  /** The rows with their last one, a contact made `now`, meet the total, weekly and spacing limits. */
  predicate WithinLimits(rows: seq<Action>, g: Guardrails, now: int)
    requires rows != []
  {
    && |Outreach(rows)| <= g.maxContacts
    && |OutreachOfWeek(rows, now)| <= g.maxContactsPerWeek
    && forall i :: i in Outreach(rows) && i < |rows| - 1 ==>
         rows[|rows| - 1].createdAt - rows[i].createdAt >= g.minIntervalHours * HOUR
  }

  /**
    What the policy permits: a wait that this case has not finished yet, a contact within the
    amount limit that still fits the limits as the next row, and everything else.
   */
  predicate Permitted(rows: seq<Action>, amount: int, kind: ActionType, g: Guardrails, now: int) {
    match kind
    case Wait | WaitForNativeRetry => forall i :: 0 <= i < |rows| && rows[i].kind == kind ==> !rows[i].status.Executed?
    case ContactCustomer | CreatePaymentLink | CollectPromiseToPay =>
      && amount <= g.maxAutomatedAmount
      && WithinLimits(rows + [Action(kind, Scheduled, now, now, None, 0, 0, None, None, 0)], g, now)
    case Escalate | Stop | FollowUpPtp => true
  }

  /** One more contact made `now` meets the limits exactly if the rows before it leave room for it. */
  lemma RoomExactly(rows: seq<Action>, next: Action, g: Guardrails, now: int)
    requires IsContact(next.kind) && next.status.Scheduled? && next.createdAt == now
    ensures WithinLimits(rows + [next], g, now) <==>
            && |Contacts(rows)| < g.maxContacts && |RecentContacts(rows, now)| < g.maxContactsPerWeek
            && CooledDown(rows, g, now)
  {
    var n, all := |rows|, rows + [next];
    assert Outreach(all) == Contacts(rows) + {n};
    if CooledDown(rows, g, now) {
      assert OutreachOfWeek(all, now) == RecentContacts(rows, now) + {n};
    } else {
      var i :| i in Contacts(rows) && now < rows[i].createdAt + g.minIntervalHours * HOUR;
      assert i in Outreach(all) && all[i] == rows[i];
    }
  }

  /** For all rows, whoever wrote them, the check allows exactly what is permitted. */
  lemma AllowedExactly(rows: seq<Action>, amount: int, kind: ActionType, g: Guardrails, now: int)
    ensures Allowed(rows, amount, kind, g, now) <==> Permitted(rows, amount, kind, g, now)
  {
    if IsContact(kind) {
      RoomExactly(rows, Action(kind, Scheduled, now, now, None, 0, 0, None, None, 0), g, now);
    }
  }

  /** CATEGORY_ACTION_PREFERENCE. */
  function Candidates(category: Category): seq<ActionType> {
    match category
    case TransientInfrastructure => [Wait]
    case SubscriptionPendingNativeRetry => [WaitForNativeRetry]
    case InsufficientBalance => [Wait, CollectPromiseToPay, ContactCustomer, Escalate]
    case CustomerAuthentication => [ContactCustomer, Escalate]
    case InvalidInstrument => [CreatePaymentLink, ContactCustomer, Escalate]
    case MandateIssue => [ContactCustomer, Escalate]
    case PermanentHardFailure => [Escalate]
    case UnknownFailure => [Escalate]
  }

  const ALL_ACTIONS: seq<ActionType> :=
    [Wait, WaitForNativeRetry, CreatePaymentLink, ContactCustomer, CollectPromiseToPay, Escalate, Stop]

  /** What the queries of one transaction see: its flushed rows, not its pending writes. */
  datatype Seen = Seen(rows: seq<Action>, failures: nat)

  function FirstAllowed(candidates: seq<ActionType>, rows: seq<Action>, amount: int, g: Guardrails,
      now: int): ActionType {
    if candidates == [] then Escalate
    else if Allowed(rows, amount, candidates[0], g, now) then candidates[0]
    else FirstAllowed(candidates[1..], rows, amount, g, now)
  }

  /** The choice of `decide`: stopping rule, then the first allowed candidate, else ESCALATE. */
  function BaselineChoice(seen: Seen, amount: int, category: Category, g: Guardrails, now: int): ActionType {
    if seen.failures > g.maxTotalAttempts then Stop
    else FirstAllowed(Candidates(category), seen.rows, amount, g, now)
  }

  /** ACTION_TO_STATE. */
  function StateFor(kind: ActionType): CaseState {
    match kind
    case Wait | WaitForNativeRetry => Waiting
    case Escalate => HumanReview
    case Stop => Stopped
    case _ => ActionScheduled
  }

  function DecidedAction(chosen: ActionType, cfg: Settings, now: int, at: int): Action {
    var delay := match chosen
      case Wait => cfg.waitDelay * SECOND
      case WaitForNativeRetry => cfg.nativeRetryDelay * SECOND
      case _ => 0;
    Action(chosen, if chosen.Escalate? || chosen.Stop? then Executed else Scheduled,
           at, now + delay, None, 0, cfg.maxAttempts, None, None, 0)
  }

  /** `_record_decision`: one decision row, one action row, and the state that goes with it. */
  function RecordDecision(s: Case, chosen: ActionType, cause: Cause, cfg: Settings, now: int, at: int): Case {
    s.(actions := s.actions + [DecidedAction(chosen, cfg, now, at)],
       decisions := s.decisions + [Decision(chosen, cause)],
       state := StateFor(chosen))
  }

  /** `c` stands at place `k` of the ranking (ESCALATE past its end) and everything before it is blocked. */
  ghost predicate PickedAt(
    k: nat, c: ActionType, ranked: seq<ActionType>, rows: seq<Action>, amount: int, g: Guardrails, now: int)
  {
    && k <= |ranked|
    && (if k < |ranked| then ranked[k] == c else c == Escalate)
    && Allowed(rows, amount, c, g, now)
    && forall j :: 0 <= j < k ==> !Allowed(rows, amount, ranked[j], g, now)
  }

  /**
    The baseline stops exactly when the failure budget is exceeded; otherwise it picks the
    best-ranked allowed candidate, and ESCALATE when no candidate is allowed.
   */
  lemma BaselineChoiceIsFirstAllowed(seen: Seen, amount: int, category: Category, g: Guardrails, now: int)
    ensures var c := BaselineChoice(seen, amount, category, g, now);
            && (c == Stop <==> seen.failures > g.maxTotalAttempts)
            && (c != Stop ==> exists k :: PickedAt(k, c, Candidates(category), seen.rows, amount, g, now))
  {
    if seen.failures <= g.maxTotalAttempts {
      var k := FirstAllowedPosition(Candidates(category), seen.rows, amount, g, now);
      assert PickedAt(k, BaselineChoice(seen, amount, category, g, now), Candidates(category), seen.rows, amount, g,
          now);
    }
  }

  /**
    The baseline in closed form. As the contact rules treat every contact alike, the second
    contact of a ranking is never reached: an invalid instrument gets a link or a human.
   */
  lemma BaselineClosedForm(category: Category, rows: seq<Action>, amount: int, g: Guardrails, now: int)
    ensures FirstAllowed(Candidates(category), rows, amount, g, now) ==
            match category
            case TransientInfrastructure => if WaitCompleted(rows, Wait) then Escalate else Wait
            case SubscriptionPendingNativeRetry =>
              if WaitCompleted(rows, WaitForNativeRetry) then Escalate else WaitForNativeRetry
            case InsufficientBalance =>
              if !WaitCompleted(rows, Wait) then Wait
              else if ContactAllowed(rows, amount, g, now) then CollectPromiseToPay else Escalate
            case CustomerAuthentication | MandateIssue =>
              if ContactAllowed(rows, amount, g, now) then ContactCustomer else Escalate
            case InvalidInstrument => if ContactAllowed(rows, amount, g, now) then CreatePaymentLink else Escalate
            case PermanentHardFailure | UnknownFailure => Escalate
  {
    var c := Candidates(category);
    Unroll(c, rows, amount, g, now);
    if |c| > 1 {
      Unroll(c[1..], rows, amount, g, now);
      if |c| > 2 {
        Unroll(c[2..], rows, amount, g, now);
        assert c[1..][1..] == c[2..];
        if |c| > 3 {
          Unroll(c[3..], rows, amount, g, now);
          assert c[2..][1..] == c[3..];
        }
      }
    }
  }

  lemma Unroll(c: seq<ActionType>, rows: seq<Action>, amount: int, g: Guardrails, now: int)
    requires c != []
    ensures FirstAllowed(c, rows, amount, g, now)
         == if Allowed(rows, amount, c[0], g, now) then c[0] else FirstAllowed(c[1..], rows, amount, g, now)
  {
  }

  lemma {:induction false} FirstAllowedPosition(
    ranked: seq<ActionType>, rows: seq<Action>, amount: int, g: Guardrails, now: int) returns (k: nat)
    ensures PickedAt(k, FirstAllowed(ranked, rows, amount, g, now), ranked, rows, amount, g, now)
  {
    if ranked == [] || Allowed(rows, amount, ranked[0], g, now) {
      k := 0;
    } else {
      var k' := FirstAllowedPosition(ranked[1..], rows, amount, g, now);
      k := k' + 1;
      assert forall j :: 0 < j < k ==> ranked[j] == ranked[1..][j - 1];
    }
  }
}
