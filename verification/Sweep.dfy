/** `reconcile_actions` over every case: lease recovery, provider lookups, and republishing. */
module Sweep {
  import opened Rows
  import opened Runtime
  import opened Protocol
  import opened LiveAction
  import opened AttemptBudget
  import opened Runs
  import opened TaskQueue
  import opened TransactionMeaning

  /** What one provider lookup of the sweep ends in. */
  datatype LookupAnswer = NoAnswer | Refused | NoLink | OneLink(linkId: string)

  /** A case with the ids of its actions and whether it came from Razorpay. */
  datatype Entry = Entry(row: Case, names: seq<string>, razorpay: bool)

  datatype Id = Id(c: nat, i: nat)

  predicate IsId(entries: seq<Entry>, id: Id) { id.c < |entries| && id.i < |entries[id.c].row.actions| }

  function RowOf(entries: seq<Entry>, id: Id): Action
    requires IsId(entries, id)
  {
    entries[id.c].row.actions[id.i]
  }

  /** `_reconcile_stale_payment_link`, falling through to the generic lease recovery where it returns None. */
  function SweptLink(s: Case, i: nat, answer: LookupAnswer, cfg: Settings, now: int): Case
    requires HasAction(s, i)
  {
    if !LeaseExpired(s.actions[i], cfg, now) then s
    else if IsTerminal(s.state) || IsSuperseded(s.actions, i) then CancelIfExecuting(s, i)
    else match answer
      case NoAnswer => s
      case Refused => ReconciliationFailure(s, i)
      case OneLink(id) => CompleteExternal(s, i, Some(id))
      case NoLink => RecoverLease(s, i, cfg, now)
  }

  function SweptCase(s: Case, i: nat, answer: LookupAnswer, cfg: Settings, now: int): Case
    requires HasAction(s, i)
  {
    if s.actions[i].kind.CreatePaymentLink? then SweptLink(s, i, answer, cfg, now) else RecoverLease(s, i, cfg, now)
  }

  /**
    What the sweep makes of one claim. One younger than the timeout is left alone. An expired one is
    put back, but a link only after the provider was asked: no answer leaves it, a refusal fails it,
    a link it finds is adopted while the case still acts, and only a link it does not have is put back.
   */
  predicate SweptMeans(s: Case, t: Case, i: nat, answer: LookupAnswer, now: int, cfg: Settings)
    requires HasAction(s, i)
  {
    if !IsOver(s.actions[i], now, cfg) then Unchanged(s, t)
    else if !s.actions[i].kind.CreatePaymentLink? then PutsBack(s, t, i, now, cfg)
    else if IsTerminal(s.state) || IsSuperseded(s.actions, i) then OnlyCancels(s, t, i)
    else match answer
      case NoAnswer => Unchanged(s, t)
      case Refused => FailsToReview(s, t, i)
      case OneLink(id) => if s.state.ActionScheduled? then SucceedsWith(s, t, i, Some(id)) else OnlyCancels(s, t, i)
      case NoLink => PutsBack(s, t, i, now, cfg)
  }

  lemma SweepHolds(s: Case, i: nat, answer: LookupAnswer, cfg: Settings, now: int, at: int)
    requires Core(s) && AllWithinBudget(s.actions, cfg) && HasAction(s, i)
    ensures SweptMeans(s, SweptCase(s, i, answer, cfg, now).(clock := at), i, answer, now, cfg)
  {
    assert WithinBudget(s.actions[i], cfg);
    if IsExecuting(s, i) {
      StandingIsEligible(s, i);
    }
  }

  /** Whatever the provider answers, a sweep leaves a claim younger than the timeout alone. */
  lemma YoungClaimIsLeftAlone(s: Case, i: nat, answer: LookupAnswer, cfg: Settings, now: int, at: int)
    requires IsExecuting(s, i) && s.actions[i].claimedAt.Some?
    requires now < s.actions[i].claimedAt.value + cfg.claimTimeout * SECOND
    ensures SweptCase(s, i, answer, cfg, now) == s
    ensures Apply(s, Step(LeaseSwept(i, now), at), cfg) == s.(clock := at)
  {
  }

  /** What the sweep does to one case is one protocol step, or nothing; so every invariant of the runs survives it. */
  lemma SweepIsAProtocolStep(s: Case, i: nat, answer: LookupAnswer, cfg: Settings, now: int, at: int)
      returns (step: Step)
    requires Core(s) && AllWithinBudget(s.actions, cfg) && HasAction(s, i) && s.clock < at && now <= at
    ensures IsEnabled(s, step)
    ensures SweptCase(s, i, answer, cfg, now).(clock := at) == Apply(s, step, cfg)
    ensures SweptMeans(s, Apply(s, step, cfg), i, answer, now, cfg)
  {
    var idle := Step(ClaimDue(|s.actions|, now), at);
    if !LeaseExpired(s.actions[i], cfg, now) {
      step := idle;
    } else if !s.actions[i].kind.CreatePaymentLink? {
      step := Step(LeaseSwept(i, now), at);
    } else if IsTerminal(s.state) || IsSuperseded(s.actions, i) {
      NewestIsNotSuperseded(s);
      step := Step(StaleCancel(i), at);
    } else {
      step := match answer
        case NoAnswer => idle
        case Refused => Step(LinkMismatch(i), at)
        case OneLink(id) => Step(ExternalDone(i, Some(id)), at)
        case NoLink => Step(LeaseSwept(i, now), at);
    }
    SweepHolds(s, i, answer, cfg, now, at);
  }

  lemma SweepCommits(s: Case, i: nat, answer: LookupAnswer, cfg: Settings, now: int, at: int)
    requires Reachable(s, cfg) && cfg.maxAttempts >= 1 && HasAction(s, i) && s.clock < at && now <= at
    ensures var t := SweptCase(s, i, answer, cfg, now).(clock := at);
            Reachable(t, cfg) && Respects(s, t) && SweptMeans(s, t, i, answer, now, cfg)
  {
    ReachableBudgetIsKept(s, cfg);
    var step := SweepIsAProtocolStep(s, i, answer, cfg, now, at);
    TransactionEnds(s, step, cfg);
  }

  // ---- The lease loop ----

  /** One turn: the row and its case change as the answer says, and nothing else does. */
  ghost predicate Turn(
    before: seq<Entry>, after: seq<Entry>, id: Id, answer: LookupAnswer, now: int, cfg: Settings)
  {
    && IsId(before, id) && IsId(after, id)
    && after == before[id.c := before[id.c].(row := after[id.c].row)]
    && SweptMeans(before[id.c].row, after[id.c].row, id.i, answer, now, cfg)
    && Respects(before[id.c].row, after[id.c].row)
  }

  /** The turns over `ids`, in order. */
  ghost predicate Turns(
    before: seq<Entry>, after: seq<Entry>, ids: seq<Id>, answers: Id -> LookupAnswer, now: int, cfg: Settings)
    decreases ids
  {
    if ids == [] then after == before
    else
      var id := ids[|ids| - 1];
      exists mid: seq<Entry> ::
        Turns(before, mid, ids[..|ids| - 1], answers, now, cfg) && Turn(mid, after, id, answers(id), now, cfg)
  }

  lemma TurnsNext(
    start: seq<Entry>, before: seq<Entry>, after: seq<Entry>, ids: seq<Id>, id: Id, answers: Id -> LookupAnswer,
    now: int, cfg: Settings)
    requires Turns(start, before, ids, answers, now, cfg) && Turn(before, after, id, answers(id), now, cfg)
    ensures Turns(start, after, ids + [id], answers, now, cfg)
  {
    var all := ids + [id];
    assert all[..|all| - 1] == ids && all[|all| - 1] == id;
  }

  /** Every case is one that a run of the protocol reaches, and its last commit was before `at`. */
  ghost predicate AllReachable(entries: seq<Entry>, at: int, cfg: Settings) {
    && cfg.maxAttempts >= 1
    && forall e :: e in entries ==> Reachable(e.row, cfg) && e.row.clock < at && |e.names| == |e.row.actions|
  }

  // ---- What the whole loop makes of a claim that stands ----

  /** Row `i` and the columns of its case are as they were. */
  predicate Untouched(s: Case, t: Case, i: nat)
    requires HasAction(s, i)
  {
    && |t.actions| == |s.actions| && t.actions[i] == s.actions[i]
    && t.state == s.state && t.link == s.link && t.effects == s.effects
    && t.promises == s.promises && t.decisions == s.decisions
  }

  /** The end of a claim that stood when its lease was over. */
  predicate StandingIsSettled(s: Case, t: Case, i: nat, answer: LookupAnswer, now: int, cfg: Settings)
    requires HasAction(s, i)
  {
    var a := s.actions[i];
    var asked := a.kind.CreatePaymentLink?;
    && |t.actions| == |s.actions| && t.promises == s.promises && t.decisions == s.decisions
    && if asked && answer.NoAnswer? then Untouched(s, t, i)
       else if asked && answer.OneLink? then
         && t.actions[i] == a.(status := Executed, link := Some(answer.linkId)) && t.state.AwaitingOutcome?
         && t.link == Some(answer.linkId) && t.effects == s.effects + [i]
       else if (asked && answer.Refused?) || a.attempts >= cfg.maxAttempts then
         && t.actions[i] == a.(status := Failed) && t.state.HumanReview?
         && t.link == s.link && t.effects == s.effects
       else
         && t.actions[i] == a.(status := Scheduled, scheduledFor := now, claimedAt := None)
         && t.state == s.state && t.link == s.link && t.effects == s.effects
  }

  predicate SameAges(s: Case, t: Case) {
    && |t.actions| == |s.actions|
    && forall j :: 0 <= j < |s.actions| ==> t.actions[j].createdAt == s.actions[j].createdAt
  }

  lemma SweepKeepsAges(s: Case, t: Case, i: nat, answer: LookupAnswer, now: int, cfg: Settings)
    requires HasAction(s, i) && SweptMeans(s, t, i, answer, now, cfg)
    ensures SameAges(s, t)
  {
  }

  /** The turn about the claim itself. */
  lemma OwnTurnSettles(s: Case, u: Case, t: Case, i: nat, answer: LookupAnswer, now: int, cfg: Settings)
    requires Ordered(s) && Stands(s, i) && IsOver(s.actions[i], now, cfg)
    requires SameAges(s, u) && Untouched(s, u, i) && SweptMeans(u, t, i, answer, now, cfg)
    ensures StandingIsSettled(s, t, i, answer, now, cfg)
  {
    assert !IsSuperseded(u.actions, i);
  }

  /** A turn about an older claim of the same case. */
  lemma OlderTurnSparesNewest(s: Case, u: Case, t: Case, i: nat, j: nat, answer: LookupAnswer, now: int, cfg: Settings)
    requires Ordered(s) && SameAges(s, u) && i == |s.actions| - 1 && j < i
    requires IsBlocking(u.actions[i]) || u.state.HumanReview?
    requires SweptMeans(u, t, j, answer, now, cfg)
    ensures Untouched(u, t, i)
  {
    if IsBlocking(u.actions[i]) {
      assert u.actions[i].createdAt > u.actions[j].createdAt;
      assert IsSuperseded(u.actions, j);
    }
  }

  /** Before its turn a standing claim is untouched; after it, it stays settled as its answer said. */
  predicate SettledIf(done: bool, s: Case, t: Case, i: nat, answer: LookupAnswer, now: int, cfg: Settings)
    requires HasAction(s, i)
  {
    SameAges(s, t) && if done then StandingIsSettled(s, t, i, answer, now, cfg) else Untouched(s, t, i)
  }

  /** A turn about claim `j`, for the standing claim `i` of the same case. */
  lemma TurnSettlesStanding(s: Case, u: Case, t: Case, i: nat, done: bool, answer: LookupAnswer, j: nat,
      turn: LookupAnswer, now: int, cfg: Settings)
    requires Ordered(s) && Stands(s, i) && IsOver(s.actions[i], now, cfg)
    requires SettledIf(done, s, u, i, answer, now, cfg) && HasAction(u, j) && SweptMeans(u, t, j, turn, now, cfg)
    requires j == i ==> !done && turn == answer
    ensures SettledIf(done || j == i, s, t, i, answer, now, cfg)
  {
    SweepKeepsAges(u, t, j, turn, now, cfg);
    if j == i {
      OwnTurnSettles(s, u, t, i, answer, now, cfg);
    } else {
      OlderTurnSparesNewest(s, u, t, i, j, turn, now, cfg);
    }
  }

  ghost predicate AllStandingSettled(
    before: seq<Entry>, after: seq<Entry>, ids: seq<Id>, answers: Id -> LookupAnswer, now: int, cfg: Settings)
  {
    forall id: Id :: id in ids && IsId(before, id) && Stands(before[id.c].row, id.i) ==>
      && id.c < |after| && StandingIsSettled(before[id.c].row, after[id.c].row, id.i, answers(id), now, cfg)
  }

  lemma LoopSettlesAllStanding(
    before: seq<Entry>, after: seq<Entry>, ids: seq<Id>, answers: Id -> LookupAnswer, now: int, at: int, cfg: Settings)
    requires Turns(before, after, ids, answers, now, cfg) && ExactlyExpired(ids, before, cfg, now)
    requires AllReachable(before, at, cfg)
    ensures AllStandingSettled(before, after, ids, answers, now, cfg)
  {
    forall id: Id | id in ids && IsId(before, id) && Stands(before[id.c].row, id.i)
      ensures id.c < |after|
      ensures StandingIsSettled(before[id.c].row, after[id.c].row, id.i, answers(id), now, cfg)
    {
      assert before[id.c] in before;
      ReachableCasesAreCore(before[id.c].row, cfg);
      LoopSettlesStanding(before, after, ids, answers, id, now, cfg);
    }
  }

  lemma {:induction false} LoopSettlesStanding(
    before: seq<Entry>, after: seq<Entry>, ids: seq<Id>, answers: Id -> LookupAnswer, id: Id, now: int, cfg: Settings)
    requires Turns(before, after, ids, answers, now, cfg) && NoRepeats(ids)
    requires IsId(before, id) && Ordered(before[id.c].row) && Stands(before[id.c].row, id.i)
    requires IsOver(RowOf(before, id), now, cfg)
    ensures IsId(after, id)
    ensures SettledIf(id in ids, before[id.c].row, after[id.c].row, id.i, answers(id), now, cfg)
    decreases ids
  {
    if ids != [] {
      var rest, last := ids[..|ids| - 1], ids[|ids| - 1];
      assert ids == rest + [last] && last !in rest;
      var mid: seq<Entry> :| Turns(before, mid, rest, answers, now, cfg)
          && Turn(mid, after, last, answers(last), now, cfg);
      LoopSettlesStanding(before, mid, rest, answers, id, now, cfg);
      if last.c == id.c {
        TurnSettlesStanding(before[id.c].row, mid[id.c].row, after[id.c].row, id.i, id in rest, answers(id), last.i,
                            answers(last), now, cfg);
      }
    }
  }

  /** An expired claim is resolved, except for a link whose lookup got no answer. */
  predicate Resolved(before: Action, after: Action, answer: LookupAnswer) {
    || after.status.Scheduled? || IsDone(after)
    || (before.kind.CreatePaymentLink? && answer.NoAnswer? && after == before)
  }

  predicate IsDone(a: Action) { a.status.Executed? || a.status.Cancelled? || a.status.Failed? }

  lemma SweepingOneAction(s: Case, t: Case, i: nat, answer: LookupAnswer, cfg: Settings, now: int)
    requires HasAction(s, i) && IsOver(s.actions[i], now, cfg) && SweptMeans(s, t, i, answer, now, cfg)
    ensures && |t.actions| == |s.actions|
            && (forall j :: 0 <= j < |s.actions| && j != i ==> t.actions[j] == s.actions[j])
            && t.actions[i].kind == s.actions[i].kind
            && Resolved(s.actions[i], t.actions[i], answer)
  {
  }

  // ---- The ids the stale query returns ----

  ghost predicate NoRepeats<T>(s: seq<T>) {
    forall a, b :: 0 <= a < b < |s| ==> s[a] != s[b]
  }

  ghost predicate ExactlyExpired(ids: seq<Id>, entries: seq<Entry>, cfg: Settings, now: int) {
    && NoRepeats(ids)
    && forall id: Id :: id in ids <==> IsId(entries, id) && IsOver(RowOf(entries, id), now, cfg)
  }

  function Moved(ids: seq<Id>, entries: seq<Entry>, status: ActionStatus): set<Id> {
    PickIf(ids, MovedTo(entries, status))
  }

  /** Same cases, action counts and names; rows may differ. */
  ghost predicate SameShape(a: seq<Entry>, b: seq<Entry>) {
    && |a| == |b|
    && forall c :: 0 <= c < |a| ==>
         && |a[c].row.actions| == |b[c].row.actions| && a[c].names == b[c].names && a[c].razorpay == b[c].razorpay
  }

  ghost predicate OnlyRowChanges(a: seq<Entry>, b: seq<Entry>, id: Id) {
    && SameShape(a, b)
    && forall x: Id :: IsId(a, x) && x != id ==> RowOf(b, x) == RowOf(a, x)
  }

  /** After sweeping `done`: those rows are resolved, all others are as they were. */
  ghost predicate Swept(before: seq<Entry>, after: seq<Entry>, done: seq<Id>, answers: Id -> LookupAnswer) {
    && SameShape(before, after)
    && (forall x: Id :: IsId(before, x) && x !in done ==> RowOf(after, x) == RowOf(before, x))
    && (forall x: Id :: x in done ==> IsId(before, x) && Resolved(RowOf(before, x), RowOf(after, x), answers(x)))
  }

  /** The sweep so far, with the two counts it will report. */
  ghost predicate Tally(
    before: seq<Entry>, after: seq<Entry>, done: seq<Id>, answers: Id -> LookupAnswer, reset: nat, failed: nat)
  {
    && Swept(before, after, done, answers)
    && reset == CountIf(done, MovedTo(after, Scheduled))
    && failed == CountIf(done, MovedTo(after, Failed))
  }

  function One(a: Action, status: ActionStatus): nat { if a.status == status then 1 else 0 }

  lemma CountNext(
    start: seq<Entry>, before: seq<Entry>, after: seq<Entry>, done: seq<Id>, id: Id, answers: Id -> LookupAnswer,
    status: ActionStatus)
    requires Swept(start, before, done, answers) && IsId(start, id) && id !in done
    requires OnlyRowChanges(before, after, id)
    ensures CountIf(done + [id], MovedTo(after, status))
        == CountIf(done, MovedTo(before, status)) + One(RowOf(after, id), status)
  {
    assert (done + [id])[..|done|] == done;
    CountIgnoresOthers(done, MovedTo(before, status), MovedTo(after, status));
  }

  lemma TallyNext(
    start: seq<Entry>, before: seq<Entry>, after: seq<Entry>, done: seq<Id>, id: Id, answers: Id -> LookupAnswer,
    reset: nat, failed: nat)
    requires Tally(start, before, done, answers, reset, failed) && IsId(start, id) && id !in done
    requires OnlyRowChanges(before, after, id) && Resolved(RowOf(before, id), RowOf(after, id), answers(id))
    ensures Tally(start, after, done + [id], answers,
                  reset + One(RowOf(after, id), Scheduled), failed + One(RowOf(after, id), Failed))
  {
    assert RowOf(before, id) == RowOf(start, id);
    SweptRows(start, before, after, done, id, answers);
    CountNext(start, before, after, done, id, answers, Scheduled);
    CountNext(start, before, after, done, id, answers, Failed);
  }

  lemma SweptRows(start: seq<Entry>, before: seq<Entry>, after: seq<Entry>, done: seq<Id>, id: Id,
      answers: Id -> LookupAnswer)
    requires Swept(start, before, done, answers) && IsId(start, id) && id !in done
    requires OnlyRowChanges(before, after, id) && Resolved(RowOf(start, id), RowOf(after, id), answers(id))
    ensures Swept(start, after, done + [id], answers)
  {
    forall x: Id | x in done + [id] ensures IsId(start, x) && Resolved(RowOf(start, x), RowOf(after, x), answers(x)) {
      if x != id {
        assert x in done;
      }
    }
  }

  /** The loop from `start` to `entries` over `done`, with what it counted. */
  ghost predicate Looped(
    start: seq<Entry>, entries: seq<Entry>, done: seq<Id>, answers: Id -> LookupAnswer, reset: nat, failed: nat,
    now: int, cfg: Settings)
  {
    && Turns(start, entries, done, answers, now, cfg)
    && Tally(start, entries, done, answers, reset, failed)
  }

  lemma LoopNext(
    start: seq<Entry>, before: seq<Entry>, after: seq<Entry>, done: seq<Id>, id: Id, then': seq<Id>,
    answers: Id -> LookupAnswer, reset: nat, failed: nat, now: int, cfg: Settings)
    requires Looped(start, before, done, answers, reset, failed, now, cfg) && IsId(start, id) && id !in done
    requires then' == done + [id]
    requires Turn(before, after, id, answers(id), now, cfg)
    requires OnlyRowChanges(before, after, id) && Resolved(RowOf(before, id), RowOf(after, id), answers(id))
    ensures Looped(start, after, then', answers, reset + One(RowOf(after, id), Scheduled),
                   failed + One(RowOf(after, id), Failed), now, cfg)
  {
    TurnsNext(start, before, after, done, id, answers, now, cfg);
    TallyNext(start, before, after, done, id, answers, reset, failed);
  }

  /** What the loop leaves expired are links whose lookup got no answer. */
  ghost predicate OnlyUnansweredLeft(
    entries: seq<Entry>, ids: seq<Id>, answers: Id -> LookupAnswer, now: int, cfg: Settings)
  {
    forall id: Id :: IsId(entries, id) && IsOver(RowOf(entries, id), now, cfg) ==>
      id in ids && RowOf(entries, id).kind.CreatePaymentLink? && answers(id).NoAnswer?
  }

  /** The claim whose turn comes next is still as the query found it. */
  lemma NextIsWaiting(
    start: seq<Entry>, entries: seq<Entry>, ids: seq<Id>, k: nat, answers: Id -> LookupAnswer, reset: nat, failed: nat,
    now: int, cfg: Settings)
    requires ExactlyExpired(ids, start, cfg, now) && k < |ids|
    requires Looped(start, entries, ids[..k], answers, reset, failed, now, cfg)
    ensures ids[k] !in ids[..k] && IsId(start, ids[k])
    ensures IsId(entries, ids[k]) && IsOver(RowOf(entries, ids[k]), now, cfg)
    ensures ids[..k + 1] == ids[..k] + [ids[k]]
  {
    assert ids[k] in ids;
  }

  lemma LoopLeavesUnanswered(
    start: seq<Entry>, entries: seq<Entry>, ids: seq<Id>, answers: Id -> LookupAnswer, now: int, cfg: Settings)
    requires Swept(start, entries, ids, answers) && ExactlyExpired(ids, start, cfg, now)
    ensures OnlyUnansweredLeft(entries, ids, answers, now, cfg)
  {
    forall id: Id | IsId(entries, id) && IsOver(RowOf(entries, id), now, cfg)
      ensures id in ids && RowOf(entries, id).kind.CreatePaymentLink? && answers(id).NoAnswer?
    {
      assert IsId(start, id);
    }
  }

  /**
    The lease loop as a whole: it takes exactly the expired claims, turn by turn; a claim that stood
    is settled as its answer says, what it leaves expired had no answer, every other row is as it
    was, and the two counts are the moves made.
   */
  ghost predicate LeasesSwept(
    before: seq<Entry>, after: seq<Entry>, ids: seq<Id>, answers: Id -> LookupAnswer, reset: nat, failed: nat,
    now: int, at: int, cfg: Settings)
  {
    && ExactlyExpired(ids, before, cfg, now) && AllReachable(after, at + |ids|, cfg)
    && Turns(before, after, ids, answers, now, cfg) && Swept(before, after, ids, answers)
    && AllStandingSettled(before, after, ids, answers, now, cfg) && OnlyUnansweredLeft(after, ids, answers, now, cfg)
    && reset == |Moved(ids, after, Scheduled)| && failed == |Moved(ids, after, Failed)|
  }

  lemma LoopEnds(
    start: seq<Entry>, entries: seq<Entry>, ids: seq<Id>, answers: Id -> LookupAnswer, reset: nat, failed: nat,
    now: int, at: int, cfg: Settings)
    requires Looped(start, entries, ids, answers, reset, failed, now, cfg)
    requires ExactlyExpired(ids, start, cfg, now) && AllReachable(start, at, cfg)
    requires AllReachable(entries, at + |ids|, cfg)
    ensures LeasesSwept(start, entries, ids, answers, reset, failed, now, at, cfg)
  {
    LoopSettlesAllStanding(start, entries, ids, answers, now, at, cfg);
    CountIsCardinality(ids, MovedTo(entries, Scheduled));
    CountIsCardinality(ids, MovedTo(entries, Failed));
    LoopLeavesUnanswered(start, entries, ids, answers, now, cfg);
  }

  lemma StillReachable(entries: seq<Entry>, c: nat, t: Case, at: int, cfg: Settings)
    requires AllReachable(entries, at, cfg) && c < |entries|
    requires Reachable(t, cfg) && t.clock == at && |t.actions| == |entries[c].row.actions|
    ensures AllReachable(entries[c := entries[c].(row := t)], at + 1, cfg)
  {
    assert entries[c] in entries;
    forall e | e in entries[c := entries[c].(row := t)]
      ensures Reachable(e.row, cfg) && e.row.clock < at + 1 && |e.names| == |e.row.actions|
    {
      assert e in entries || e == entries[c].(row := t);
    }
  }

  lemma SweepIsATurn(
    entries: seq<Entry>, after: seq<Entry>, id: Id, answer: LookupAnswer, t: Case, cfg: Settings, now: int, at: int)
    requires AllReachable(entries, at, cfg) && now <= at
    requires IsId(entries, id) && IsOver(RowOf(entries, id), now, cfg)
    requires t == SweptCase(entries[id.c].row, id.i, answer, cfg, now).(clock := at)
    requires after == entries[id.c := entries[id.c].(row := t)]
    ensures Turn(entries, after, id, answer, now, cfg) && OnlyRowChanges(entries, after, id)
    ensures Resolved(RowOf(entries, id), RowOf(after, id), answer) && AllReachable(after, at + 1, cfg)
  {
    var s := entries[id.c].row;
    assert entries[id.c] in entries;
    SweepCommits(s, id.i, answer, cfg, now, at);
    SweepingOneAction(s, t, id.i, answer, cfg, now);
    StillReachable(entries, id.c, t, at, cfg);
  }

  predicate IsQueueable(kind: ActionType) { IsWait(kind) || IsContact(kind) || kind.FollowUpPtp? }

  /** The actions `enqueue_action` publishes. */
  predicate IsPublished(entries: seq<Entry>, id: Id) {
    && IsId(entries, id) && entries[id.c].razorpay && id.i < |entries[id.c].names|
    && RowOf(entries, id).status.Scheduled? && IsQueueable(RowOf(entries, id).kind)
  }

  function JobOf(entries: seq<Entry>, id: Id): string
    requires IsPublished(entries, id)
  {
    JobId(entries[id.c].names[id.i], RowOf(entries, id).attempts)
  }

  /** Published is every scheduled action a worker can run, of a Razorpay case, under its own generation. */
  lemma PublishedExactly(entries: seq<Entry>, id: Id)
    requires id.c < |entries| && |entries[id.c].names| == |entries[id.c].row.actions|
    ensures IsPublished(entries, id) <==>
            && IsId(entries, id) && entries[id.c].razorpay && RowOf(entries, id).status.Scheduled?
            && !RowOf(entries, id).kind.Escalate? && !RowOf(entries, id).kind.Stop?
    ensures IsPublished(entries, id) ==>
              JobOf(entries, id)
              == "action-" + entries[id.c].names[id.i] + "-" + Decimal(RowOf(entries, id).attempts)
  {
  }

  /** If action `i` is such an action, its job is registered. */
  predicate HasJobIfDue(jobs: map<string, JobState>, e: Entry, i: nat)
    requires i < |e.row.actions|
  {
    var a := e.row.actions[i];
    e.razorpay && a.status.Scheduled? && !a.kind.Escalate? && !a.kind.Stop? ==>
      && i < |e.names|
      && var job := "action-" + e.names[i] + "-" + Decimal(a.attempts); job in jobs && jobs[job].Registered?
  }

  ghost predicate DueWorkHasJobs(jobs: map<string, JobState>, entries: seq<Entry>) {
    forall c, i :: 0 <= c < |entries| && 0 <= i < |entries[c].row.actions| ==> HasJobIfDue(jobs, entries[c], i)
  }

  lemma PublishedHasJobs(jobs: map<string, JobState>, entries: seq<Entry>, at: int, cfg: Settings)
    requires AllReachable(entries, at, cfg)
    requires forall id: Id :: IsPublished(entries, id) ==> HasJob(jobs, entries, id)
    ensures DueWorkHasJobs(jobs, entries)
  {
    forall c, i | 0 <= c < |entries| && 0 <= i < |entries[c].row.actions| ensures HasJobIfDue(jobs, entries[c], i) {
      assert entries[c] in entries;
      PublishedExactly(entries, Id(c, i));
    }
  }

  /** The actions of one case the republishing query returns. */
  function PublishedOf(entries: seq<Entry>, c: nat, n: nat): set<nat> {
    set i: nat | i < n && IsPublished(entries, Id(c, i))
  }

  lemma PublishedNext(entries: seq<Entry>, c: nat, i: nat)
    ensures |PublishedOf(entries, c, i + 1)|
        == |PublishedOf(entries, c, i)| + if IsPublished(entries, Id(c, i)) then 1 else 0
  {
    if IsPublished(entries, Id(c, i)) {
      assert PublishedOf(entries, c, i + 1) == PublishedOf(entries, c, i) + {i};
    } else {
      assert PublishedOf(entries, c, i + 1) == PublishedOf(entries, c, i);
    }
  }

  function PublishedCount(entries: seq<Entry>, n: nat): nat
    requires n <= |entries|
  {
    if n == 0 then 0
    else PublishedCount(entries, n - 1) + |PublishedOf(entries, n - 1, |entries[n - 1].row.actions|)|
  }

  ghost predicate IsScheduledJob(job: string, entries: seq<Entry>) {
    exists id: Id :: IsPublished(entries, id) && JobOf(entries, id) == job
  }

  /** Republishing only registers: registered jobs stay, and every new job belongs to a scheduled generation. */
  ghost predicate OnlyRegisters(before: map<string, JobState>, after: map<string, JobState>, entries: seq<Entry>) {
    && (forall job :: job in before ==> job in after && (before[job].Registered? ==> after[job].Registered?))
    && (forall job :: job in after && (job !in before || after[job] != before[job]) ==> IsScheduledJob(job, entries))
  }

  predicate HasJob(jobs: map<string, JobState>, entries: seq<Entry>, id: Id)
    requires IsPublished(entries, id)
  {
    JobOf(entries, id) in jobs && jobs[JobOf(entries, id)].Registered?
  }

  /** The first `n` actions of a case have their jobs. */
  ghost predicate CaseHasJobs(jobs: map<string, JobState>, entries: seq<Entry>, c: nat, n: nat) {
    forall id: Id :: id.c == c && id.i < n && IsPublished(entries, id) ==> HasJob(jobs, entries, id)
  }

  lemma JobsNext(before: map<string, JobState>, after: map<string, JobState>, entries: seq<Entry>, c: nat, i: nat)
    requires CaseHasJobs(before, entries, c, i)
    requires after == before || (IsPublished(entries, Id(c, i))
        && after == before[JobOf(entries, Id(c, i)) := Registered])
    requires IsPublished(entries, Id(c, i)) ==> HasJob(after, entries, Id(c, i))
    ensures CaseHasJobs(after, entries, c, i + 1)
  {
  }

  class Reconciler {
    const cfg: Settings
    var entries: seq<Entry>
    var jobs: map<string, JobState>

    constructor (cfg: Settings, entries: seq<Entry>, jobs: map<string, JobState>)
      ensures this.cfg == cfg && this.entries == entries && this.jobs == jobs
    {
      this.cfg, this.entries, this.jobs := cfg, entries, jobs;
    }

    /** The stale query. */
    method StaleIds(now: int) returns (ids: seq<Id>)
      ensures ExactlyExpired(ids, entries, cfg, now)
    {
      ids := [];
      for c := 0 to |entries|
        invariant NoRepeats(ids)
        invariant forall id: Id :: id in ids <==>
            id.c < c && IsId(entries, id) && LeaseExpired(RowOf(entries, id), cfg, now)
      {
        for i := 0 to |entries[c].row.actions|
          invariant NoRepeats(ids)
          invariant forall id: Id :: id in ids <==>
                      (id.c < c || (id.c == c && id.i < i)) && IsId(entries, id)
                          && LeaseExpired(RowOf(entries, id), cfg, now)
        {
          if LeaseExpired(entries[c].row.actions[i], cfg, now) {
            ids := ids + [Id(c, i)];
          }
        }
      }
    }

    /** One turn of the lease loop; returns what it adds to `reset` and `failed`. */
    method SweepAction(id: Id, answer: LookupAnswer, now: int, at: int) returns (reset: nat, failed: nat)
      requires AllReachable(entries, at, cfg) && now <= at
      requires IsId(entries, id) && IsOver(RowOf(entries, id), now, cfg)
      modifies `entries
      ensures AllReachable(entries, at + 1, cfg) && Turn(old(entries), entries, id, answer, now, cfg)
      ensures OnlyRowChanges(old(entries), entries, id)
      ensures Resolved(RowOf(old(entries), id), RowOf(entries, id), answer)
      ensures reset == One(RowOf(entries, id), Scheduled) && failed == One(RowOf(entries, id), Failed)
    {
      var e := entries[id.c];
      var t := SweptCase(e.row, id.i, answer, cfg, now).(clock := at);
      SweepIsATurn(entries, entries[id.c := e.(row := t)], id, answer, t, cfg, now, at);
      reset := if t.actions[id.i].status.Scheduled? then 1 else 0;
      failed := if t.actions[id.i].status.Failed? then 1 else 0;
      entries := entries[id.c := e.(row := t)];
    }

    /** The lease loop over all stale ids, committing from `at` on: what it leaves behind, and what it reports. */
    method SweepLeases(answers: Id -> LookupAnswer, now: int, at: int)
      returns (reset: nat, failed: nat, ghost ids: seq<Id>)
      requires AllReachable(entries, at, cfg) && now <= at
      modifies `entries
      ensures LeasesSwept(old(entries), entries, ids, answers, reset, failed, now, at, cfg)
    {
      var stale := StaleIds(now);
      ids := stale;
      reset, failed := 0, 0;
      for k := 0 to |stale|
        invariant k <= |stale| && AllReachable(entries, at + k, cfg)
        invariant Looped(old(entries), entries, stale[..k], answers, reset, failed, now, cfg)
      {
        ghost var before := entries;
        var id := stale[k];
        NextIsWaiting(old(entries), entries, stale, k, answers, reset, failed, now, cfg);
        var r, f := SweepAction(id, answers(id), now, at + k);
        LoopNext(old(entries), before, entries, stale[..k], id, stale[..k + 1], answers, reset, failed, now, cfg);
        reset, failed := reset + r, failed + f;
      }
      assert stale[..|stale|] == stale;
      LoopEnds(old(entries), entries, stale, answers, reset, failed, now, at, cfg);
    }

    /** `enqueue_action` with publishing up or down. */
    method EnqueueAction(id: Id, up: bool) returns (published: bool)
      modifies `jobs
      ensures published <==> up && IsPublished(entries, id)
      ensures jobs == if published then old(jobs)[JobOf(entries, id) := Registered] else old(jobs)
      ensures OnlyRegisters(old(jobs), jobs, entries)
    {
      if !IsPublished(entries, id) || !up {
        return false;
      }
      var job := JobOf(entries, id);
      var exists' := job in jobs;
      if exists' && jobs[job].Unregistered? {
        jobs := map k | k in jobs && k != job :: jobs[k];
        exists' := false;
      }
      if !exists' {
        jobs := jobs[job := Registered];
      }
      assert jobs == old(jobs)[job := Registered];
      assert IsScheduledJob(job, entries);
      return true;
    }

    method RepublishCase(c: nat, up: bool) returns (scheduled: nat, enqueued: nat)
      requires c < |entries|
      modifies `jobs
      ensures up ==> CaseHasJobs(jobs, entries, c, |entries[c].row.actions|)
      ensures OnlyRegisters(old(jobs), jobs, entries)
      ensures scheduled == |PublishedOf(entries, c, |entries[c].row.actions|)| && enqueued == if up then scheduled
          else 0
    {
      scheduled, enqueued := 0, 0;
      for i := 0 to |entries[c].row.actions|
        invariant scheduled == |PublishedOf(entries, c, i)|
        invariant up ==> CaseHasJobs(jobs, entries, c, i)
        invariant OnlyRegisters(old(jobs), jobs, entries)
        invariant enqueued == if up then scheduled else 0
      {
        var id := Id(c, i);
        ghost var before := jobs;
        PublishedNext(entries, c, i);
        if IsPublished(entries, id) {
          scheduled := scheduled + 1;
          var published := EnqueueAction(id, up);
          RegistersComposes(old(jobs), before, jobs, entries);
          if published {
            enqueued := enqueued + 1;
          }
        }
        if up {
          JobsNext(before, jobs, entries, c, i);
        }
      }
    }

    /** The republishing loop: whatever Redis held, every scheduled generation ends up with a registered job. */
    method Republish(up: bool) returns (scheduled: nat, enqueued: nat)
      modifies `jobs
      ensures up ==> forall id: Id :: IsPublished(entries, id) ==> HasJob(jobs, entries, id)
      ensures OnlyRegisters(old(jobs), jobs, entries)
      ensures scheduled == PublishedCount(entries, |entries|) && enqueued == if up then scheduled else 0
    {
      scheduled, enqueued := 0, 0;
      for c := 0 to |entries|
        invariant up ==> forall id: Id :: id.c < c && IsPublished(entries, id) ==> HasJob(jobs, entries, id)
        invariant OnlyRegisters(old(jobs), jobs, entries)
        invariant scheduled == PublishedCount(entries, c)
        invariant enqueued == if up then scheduled else 0
      {
        ghost var before := jobs;
        var s, e := RepublishCase(c, up);
        RegistersComposes(old(jobs), before, jobs, entries);
        scheduled, enqueued := scheduled + s, enqueued + e;
      }
    }

    /**
      One unlimited `reconcile_actions`: afterwards no expired claim remains except links whose
      lookup got no answer, every claim that stood is settled as its answer says, the two counts are
      exactly the moves made, and with publishing up every scheduled queueable Razorpay action has a
      registered job for its generation.
     */
    method ReconcileActions(answers: Id -> LookupAnswer, now: int, at: int, up: bool)
      returns (reset: nat, failed: nat, scheduled: nat, enqueued: nat, ghost ids: seq<Id>)
      requires AllReachable(entries, at, cfg) && now <= at
      modifies this
      ensures LeasesSwept(old(entries), entries, ids, answers, reset, failed, now, at, cfg)
      ensures up ==> DueWorkHasJobs(jobs, entries)
      ensures OnlyRegisters(old(jobs), jobs, entries)
      ensures scheduled == PublishedCount(entries, |entries|) && enqueued == if up then scheduled else 0
    {
      reset, failed, ids := SweepLeases(answers, now, at);
      scheduled, enqueued := Republish(up);
      if up {
        PublishedHasJobs(jobs, entries, at + |ids|, cfg);
      }
    }
  }

  lemma RegistersComposes(a: map<string, JobState>, b: map<string, JobState>, c: map<string, JobState>,
      entries: seq<Entry>)
    requires OnlyRegisters(a, b, entries) && OnlyRegisters(b, c, entries)
    ensures OnlyRegisters(a, c, entries)
  {
  }

  // ---- Counting moves ----

  predicate IsMoved(id: Id, entries: seq<Entry>, status: ActionStatus) {
    IsId(entries, id) && RowOf(entries, id).status == status
  }

  function MovedTo(entries: seq<Entry>, status: ActionStatus): Id -> bool {
    id => IsMoved(id, entries, status)
  }

  function CountIf<T>(s: seq<T>, p: T -> bool): nat {
    if s == [] then 0 else CountIf(s[..|s| - 1], p) + if p(s[|s| - 1]) then 1 else 0
  }

  function PickIf<T>(s: seq<T>, p: T -> bool): set<T> { set x | x in s && p(x) }

  lemma {:induction false} CountIgnoresOthers<T>(s: seq<T>, p: T -> bool, q: T -> bool)
    requires forall x :: x in s ==> p(x) == q(x)
    ensures CountIf(s, p) == CountIf(s, q)
  {
    if s != [] {
      CountIgnoresOthers(s[..|s| - 1], p, q);
    }
  }

  lemma {:induction false} CountIsCardinality<T>(s: seq<T>, p: T -> bool)
    requires NoRepeats(s)
    ensures CountIf(s, p) == |PickIf(s, p)|
  {
    if s != [] {
      var init, last := s[..|s| - 1], s[|s| - 1];
      CountIsCardinality(init, p);
      assert s == init + [last];
      if p(last) {
        assert PickIf(s, p) == PickIf(init, p) + {last};
      } else {
        assert PickIf(s, p) == PickIf(init, p);
      }
    }
  }
}
