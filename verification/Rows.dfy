/** The rows of one recovery case and the settings every transaction reads. */
module Rows {

  datatype Option<+T> = None | Some(value: T)

  datatype CaseState =
    | Detected | Diagnosed | DecisionReady
    | Waiting | ActionScheduled | AwaitingOutcome
    | HumanReview | Recovered | Stopped | Disputed

  datatype ActionType =
    | Wait | WaitForNativeRetry
    | CreatePaymentLink | ContactCustomer | CollectPromiseToPay
    | Escalate | Stop | FollowUpPtp

  datatype ActionStatus = Scheduled | Executing | Executed | Cancelled | Failed

  datatype PromiseStatus = Pending | Kept | Broken | Superseded

  datatype Category =
    | TransientInfrastructure | SubscriptionPendingNativeRetry | InsufficientBalance
    | CustomerAuthentication | InvalidInstrument | MandateIssue
    | PermanentHardFailure | UnknownFailure

  /** `backoff` is a history value: the sum of all retry delays ever added to the row. */
  datatype Action = Action(
    kind: ActionType,
    status: ActionStatus,
    createdAt: int,
    scheduledFor: int,
    claimedAt: Option<int>,
    attempts: nat,
    maxAttempts: nat,
    promise: Option<nat>,
    link: Option<string>,
    backoff: nat)

  /** `resolvedAt` is a history value: when the promise left PENDING. */
  datatype Promise = Promise(amount: int, day: int, status: PromiseStatus, resolvedAt: Option<int>)

  datatype Cause = ByFailure | ByWait

  datatype Decision = Decision(chosen: ActionType, cause: Cause)

  /**
    One `revenue_cases` row with the rows that hang off it. An action is named by its
    position, which is also its age. `failures` counts the committed failure audit rows,
    `effects` lists the actions whose success was applied, in order, and `clock` is the
    time of the last committed transaction on the case.
   */
  datatype Case = Case(
    state: CaseState,
    amount: int,
    currency: string,
    category: Category,
    link: Option<string>,
    subscriptionLinked: bool,
    actions: seq<Action>,
    promises: seq<Promise>,
    failures: nat,
    decisions: seq<Decision>,
    effects: seq<nat>,
    clock: int)

  datatype Guardrails = Guardrails(
    maxContacts: nat,
    maxContactsPerWeek: nat,
    minIntervalHours: nat,
    maxAutomatedAmount: int,
    maxTotalAttempts: nat)

  datatype Settings = Settings(
    guardrails: Guardrails,
    waitDelay: nat,
    nativeRetryDelay: nat,
    maxAttempts: nat,
    retryDelay: nat,
    claimTimeout: nat,
    zoneOffset: int,
    frictionWeight: real)

  // Times count microseconds, amounts count paise.
  const SECOND: int := 1_000_000
  const HOUR: int := 3600 * SECOND
  const DAY: int := 24 * HOUR

  const DEFAULT_GUARDRAILS: Guardrails := Guardrails(3, 2, 12, 2_500_000, 5)

  predicate IsWait(kind: ActionType) { kind.Wait? || kind.WaitForNativeRetry? }

  predicate IsContact(kind: ActionType) {
    kind.ContactCustomer? || kind.CreatePaymentLink? || kind.CollectPromiseToPay?
  }

  predicate IsTerminal(state: CaseState) { state.Recovered? || state.Stopped? || state.Disputed? }

  predicate IsLive(a: Action) { a.status.Scheduled? || a.status.Executing? }

  predicate IsBlocking(a: Action) { IsLive(a) || a.status.Executed? }

  function Pow2(n: nat): (p: nat)
    ensures p >= 1
  {
    if n == 0 then 1 else 2 * Pow2(n - 1)
  }
}
