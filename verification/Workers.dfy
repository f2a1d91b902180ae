/**
  Workers and the provider around one case. A worker is where it stands between its transactions
  and provider calls; any number may be in flight on one action, because leases expire. Every move
  is a protocol step on the case or leaves the case alone.
 */
module Workers {
  import opened Rows
  import opened Runtime
  import opened Protocol
  import opened LiveAction
  import opened History
  import ContactCap
  import opened AttemptBudget
  import opened Latch
  import opened EffectLedger
  import opened Runs
  import opened Provider

  datatype Phase =
    | Idle
    | Claimed(i: nat)                                   // claim committed
    | Ready(i: nat, snap: Snapshot)                     // about to perform
    | HasResult(i: nat, result: Option<string>)         // about to complete
    | MustRetry(i: nat)                                 // about to record a failure or an unclear lookup
    | Ambiguous(i: nat)                                 // provider outcome unknown
    | Reloaded(i: nat, snap: Snapshot, sweeping: bool)  // snapshot taken, case state not yet looked at
    | Looking(i: nat, snap: Snapshot, sweeping: bool)   // about to ask the provider
    | Adopting(i: nat, found: string)                   // validated link, eligibility check ahead
    | Mismatched(i: nat)
    | MustCancel(i: nat)
    | SweptAbsent(i: nat)                               // sweep: provider has no link

  /** `calls` counts the external performs ever made, per action. */
  datatype World = World(db: Case, links: seq<Link>, workers: seq<Phase>, calls: multiset<nat>)

  /** How an external perform can end; a link may have been created although no success was seen. */
  datatype CallOutcome = Accepted | Unknown(committed: bool) | Refused(committed: bool)

  datatype Answer = Listed | NoAnswer | HardError

  datatype Move =
    | Commit(step: Step)
    | Arrive
    | Crash(w: nat)
    | ClaimBy(w: nat, i: nat, now: int, at: int)
    | Snap(w: nat)
    | Perform(w: nat, outcome: CallOutcome, linkId: string)
    | StartSweep(w: nat, i: nat)
    | Check(w: nat, now: int)
    | Look(w: nat, answer: Answer)
    | Finish(w: nat, now: int, at: int)
    | LinkChanges(k: nat, status: LinkStatus)

  /** Transactions no phase of a contact or link worker stands for. */
  predicate IsFree(s: Case, e: Event) {
    || IsInbound(e) || e.WaitDone? || e.PtpDone? || e.DueFollowupRun?
    || (e.ClaimDue? && (HasAction(s, e.i) ==> !IsContact(s.actions[e.i].kind)))
    || (e.LeaseSwept? && (HasAction(s, e.i) ==> !s.actions[e.i].kind.CreatePaymentLink?))
  }

  predicate HasWorker(w: World, k: nat) { k < |w.workers| }

  /** The transaction a worker runs when it commits from its phase. */
  function FinalEvent(p: Phase, now: int): Event
    requires p.HasResult? || p.MustRetry? || p.Mismatched? || p.MustCancel? || p.SweptAbsent? || p.Adopting?
  {
    match p
    case HasResult(i, result) => ExternalDone(i, result)
    case MustRetry(i) => ExternalRetry(i, now)
    case Mismatched(i) => LinkMismatch(i)
    case MustCancel(i) => StaleCancel(i)
    case SweptAbsent(i) => LeaseSwept(i, now)
    case Adopting(i, found) => ExternalDone(i, Some(found))
  }

  /** The adoption check only cancels: an eligible action is left for the completion that follows. */
  predicate AdoptionStands(s: Case, i: nat) {
    IsExecuting(s, i) && s.state.ActionScheduled? && !IsSuperseded(s.actions, i)
  }

  predicate CanMove(w: World, m: Move) {
    match m
    case Commit(step) => IsEnabled(w.db, step) && IsFree(w.db, step.event)
    case Arrive => true
    case Crash(k) => HasWorker(w, k)
    case ClaimBy(k, i, now, at) =>
      HasWorker(w, k) && w.workers[k].Idle? && HasAction(w.db, i) && IsContact(w.db.actions[i].kind)
      && now <= at && at > w.db.clock
    case Snap(k) => HasWorker(w, k) && (w.workers[k].Claimed? || w.workers[k].Ambiguous?)
    case Perform(k, outcome, linkId) =>
      HasWorker(w, k) && w.workers[k].Ready? && HasAction(w.db, w.workers[k].i)
      && forall l :: l in w.links ==> l.linkId != linkId
    case StartSweep(k, i) =>
      HasWorker(w, k) && w.workers[k].Idle? && HasAction(w.db, i) && w.db.actions[i].kind.CreatePaymentLink?
    case Check(k, now) => HasWorker(w, k) && w.workers[k].Reloaded? && HasAction(w.db, w.workers[k].i)
    case Look(k, answer) => HasWorker(w, k) && w.workers[k].Looking?
    case Finish(k, now, at) =>
      HasWorker(w, k) && now <= at && at > w.db.clock
      && (w.workers[k].HasResult? || w.workers[k].MustRetry? || w.workers[k].Mismatched?
          || w.workers[k].MustCancel? || w.workers[k].SweptAbsent? || w.workers[k].Adopting?)
      && IsRouted(w.db, FinalEvent(w.workers[k], now))
    case LinkChanges(k, status) => k < |w.links|
  }

  function At(w: World, k: nat, p: Phase): World
    requires HasWorker(w, k)
  {
    w.(workers := w.workers[k := p])
  }

  /** `perform`: one call for the action, whatever comes back. The provider refuses a used reference. */
  function Performed(w: World, k: nat, outcome: CallOutcome, linkId: string, caseId: string): World
    requires CanMove(w, Perform(k, outcome, linkId))
  {
    var Ready(i, snap) := w.workers[k];
    var called := w.(calls := w.calls + multiset{i});
    if !w.db.actions[i].kind.CreatePaymentLink? then
      At(called, k, if outcome.Accepted? then HasResult(i, None) else MustRetry(i))
    else
      var duplicate := Holds(w.links, i);
      var created := !duplicate && (outcome.Accepted? || outcome.committed);
      var links := if created then w.links + [RequestedLink(linkId, i, caseId, snap)] else w.links;
      var p := match outcome
        case Accepted => if duplicate then Ambiguous(i) else HasResult(i, Some(linkId))
        case Unknown(_) => Ambiguous(i)
        case Refused(_) => MustRetry(i);
      At(called.(links := links), k, p)
  }

  /** The unlocked look at the case before a provider lookup. */
  function Checked(w: World, k: nat, cfg: Settings, now: int): Phase
    requires CanMove(w, Check(k, now))
  {
    var Reloaded(i, snap, sweeping) := w.workers[k];
    if !sweeping then
      if IsTerminal(w.db.state) then MustCancel(i) else Looking(i, snap, false)
    else if !LeaseExpired(w.db.actions[i], cfg, now) then Idle
    else if IsTerminal(w.db.state) || IsSuperseded(w.db.actions, i) then MustCancel(i)
    else Looking(i, snap, true)
  }

  /** Where the provider's answer sends the worker. */
  function Looked(w: World, k: nat, answer: Answer, caseId: string): Phase
    requires CanMove(w, Look(k, answer))
  {
    var Looking(i, snap, sweeping) := w.workers[k];
    match answer
    case NoAnswer => if sweeping then Idle else MustRetry(i)
    case HardError => Mismatched(i)
    case Listed =>
      match FindPaymentLink(ByReference(w.links, i), i, caseId, snap)
      case Absent => if sweeping then SweptAbsent(i) else MustRetry(i)
      case Found(link) => if sweeping then HasResult(i, Some(link.linkId)) else Adopting(i, link.linkId)
      case Mismatch => Mismatched(i)
  }

  function Next(w: World, m: Move, cfg: Settings, caseId: string): World
    requires CanMove(w, m)
  {
    match m
    case Commit(step) => w.(db := Apply(w.db, step, cfg))
    case Arrive => w.(workers := w.workers + [Idle])
    case Crash(k) => At(w, k, Idle)
    case ClaimBy(k, i, now, at) =>
      var db := Apply(w.db, Step(ClaimDue(i, now), at), cfg);
      var took := w.db.actions[i].status.Scheduled? && db.actions[i].status.Executing?;
      At(w.(db := db), k, if took then Claimed(i) else Idle)
    case Snap(k) =>
      At(w, k, if w.workers[k].Claimed? then Ready(w.workers[k].i, SnapshotOf(w.db))
               else Reloaded(w.workers[k].i, SnapshotOf(w.db), false))
    case Perform(k, outcome, linkId) => Performed(w, k, outcome, linkId, caseId)
    case StartSweep(k, i) => At(w, k, Reloaded(i, SnapshotOf(w.db), true))
    case Check(k, now) => At(w, k, Checked(w, k, cfg, now))
    case Look(k, answer) => At(w, k, Looked(w, k, answer, caseId))
    case Finish(k, now, at) =>
      var p := w.workers[k];
      if p.Adopting? && (AdoptionStands(w.db, p.i) || !IsExecuting(w.db, p.i)) then
        At(w, k, if IsExecuting(w.db, p.i) then HasResult(p.i, Some(p.found)) else Idle)
      else
        At(w.(db := Apply(w.db, Step(FinalEvent(p, now), at), cfg)), k, Idle)
    case LinkChanges(k, status) => w.(links := w.links[k := w.links[k].(status := status)])
  }

  // ---- Every move is a protocol step ----

  ghost predicate StepsTo(s: Case, t: Case, cfg: Settings) {
    t == s || exists step: Step :: IsEnabled(s, step) && t == Apply(s, step, cfg)
  }

  /** The protocol step a move makes, if any. */
  function StepOf(w: World, m: Move): Option<Step>
    requires CanMove(w, m)
  {
    match m
    case Commit(step) => Some(step)
    case ClaimBy(_, i, now, at) => Some(Step(ClaimDue(i, now), at))
    case Finish(k, now, at) =>
      var p := w.workers[k];
      if p.Adopting? && (AdoptionStands(w.db, p.i) || !IsExecuting(w.db, p.i)) then None
      else Some(Step(FinalEvent(p, now), at))
    case _ => None
  }

  /** What a move does to the case is the enabled step it names, or nothing, and only a commit is inbound. */
  lemma MovesAreProtocolSteps(w: World, m: Move, cfg: Settings, caseId: string)
    requires CanMove(w, m)
    ensures match StepOf(w, m)
            case None => Next(w, m, cfg, caseId).db == w.db
            case Some(step) =>
              && IsEnabled(w.db, step) && Next(w, m, cfg, caseId).db == Apply(w.db, step, cfg)
              && (IsInbound(step.event) ==> m == Commit(step))
  {
  }

  lemma MovesStepTo(w: World, m: Move, cfg: Settings, caseId: string)
    requires CanMove(w, m)
    ensures StepsTo(w.db, Next(w, m, cfg, caseId).db, cfg)
  {
    MovesAreProtocolSteps(w, m, cfg, caseId);
  }

  // ---- Invariants ----

  predicate Records(links: seq<Link>, i: nat, id: string) {
    exists k :: 0 <= k < |links| && links[k].reference == Some(i) && links[k].linkId == id
  }

  predicate IsLinkAction(s: Case, i: nat) { HasAction(s, i) && s.actions[i].kind.CreatePaymentLink? }

  predicate IsContactAction(s: Case, i: nat) { HasAction(s, i) && IsContact(s.actions[i].kind) }

  /** What a worker may rely on in its phase, however long it is delayed. */
  ghost predicate PhaseSound(s: Case, links: seq<Link>, p: Phase) {
    match p
    case Idle => true
    case Claimed(i) => IsContactAction(s, i)
    case Ready(i, snap) => IsContactAction(s, i) && snap.currency != ""
    case HasResult(i, result) =>
      IsContactAction(s, i) && (IsLinkAction(s, i) ==> result.Some? && Records(links, i, result.value))
    case MustRetry(i) => IsContactAction(s, i)
    case Ambiguous(i) => IsLinkAction(s, i)
    case Reloaded(i, _, _) => IsLinkAction(s, i)
    case Looking(i, _, _) => IsLinkAction(s, i)
    case Adopting(i, found) => IsLinkAction(s, i) && Records(links, i, found)
    case Mismatched(i) => IsLinkAction(s, i)
    case MustCancel(i) => IsLinkAction(s, i) && (i < |s.actions| - 1 || IsLatched(s))
    case SweptAbsent(i) => IsLinkAction(s, i)
  }

  /** At most one link per action, and distinct link ids; each link still carries what was asked for. */
  ghost predicate LinksSound(s: Case, links: seq<Link>) {
    && UniqueReferences(links)
    && (forall k, l :: 0 <= k < l < |links| ==> links[k].linkId != links[l].linkId)
    && (forall k :: 0 <= k < |links| ==> links[k].reference.Some? && IsLinkAction(s, links[k].reference.value))
  }

  /** An EXECUTED payment-link action records the provider's link for it. */
  ghost predicate LinksAgree(s: Case, links: seq<Link>) {
    forall i :: 0 <= i < |s.actions| && s.actions[i].kind.CreatePaymentLink? && s.actions[i].status.Executed? ==>
      s.actions[i].link.Some? && Records(links, i, s.actions[i].link.value)
  }

  predicate IsAboutToPerform(p: Phase, i: nat) { (p.Claimed? || p.Ready?) && p.i == i }

  function AboutToPerform(workers: seq<Phase>, i: nat): set<nat> {
    set k: nat | k < |workers| && IsAboutToPerform(workers[k], i)
  }

  /** Every perform is paid for by a claim. */
  ghost predicate CallsPaid(w: World) {
    forall i: nat :: w.calls[i] + |AboutToPerform(w.workers, i)| <= if HasAction(w.db, i)
        then w.db.actions[i].attempts else 0
  }

  ghost predicate PhasesSound(w: World) {
    forall k :: 0 <= k < |w.workers| ==> PhaseSound(w.db, w.links, w.workers[k])
  }

  ghost predicate Sound(w: World, cfg: Settings) {
    && Invariant(w.db, cfg)
    && LinksSound(w.db, w.links)
    && LinksAgree(w.db, w.links)
    && PhasesSound(w)
    && CallsPaid(w)
  }

  /** The provider only gains links and changes statuses. */
  ghost predicate LinksGrow(old': seq<Link>, new': seq<Link>) {
    && |old'| <= |new'|
    && forall k :: 0 <= k < |old'| ==> new'[k].reference == old'[k].reference && new'[k].linkId == old'[k].linkId
  }

  lemma RecordsStay(old': seq<Link>, new': seq<Link>, i: nat, id: string)
    requires LinksGrow(old', new') && Records(old', i, id)
    ensures Records(new', i, id)
  {
    var k :| 0 <= k < |old'| && old'[k].reference == Some(i) && old'[k].linkId == id;
    assert new'[k].reference == Some(i);
  }

  /** A phase stays sound under every protocol step and every provider event, so late workers are harmless. */
  lemma PhasesAreStable(s: Case, t: Case, old': seq<Link>, new': seq<Link>, p: Phase, cfg: Settings)
    requires Core(s) && StepsTo(s, t, cfg) && LinksGrow(old', new')
    requires PhaseSound(s, old', p)
    ensures PhaseSound(t, new', p)
  {
    if t != s {
      var step: Step :| IsEnabled(s, step) && t == Apply(s, step, cfg);
      StepEvolvesRows(s, step, cfg);
      if IsLatched(s) {
        StepKeepsLatch(s, step, cfg);
      }
    }
    if p.HasResult? && p.result.Some? && Records(old', p.i, p.result.value) {
      RecordsStay(old', new', p.i, p.result.value);
    }
    if p.Adopting? {
      RecordsStay(old', new', p.i, p.found);
    }
  }

  lemma LinksStaySound(s: Case, t: Case, links: seq<Link>, cfg: Settings)
    requires Core(s) && StepsTo(s, t, cfg) && LinksSound(s, links)
    ensures LinksSound(t, links)
  {
    if t != s {
      var step: Step :| IsEnabled(s, step) && t == Apply(s, step, cfg);
      StepEvolvesRows(s, step, cfg);
    }
  }

  /** A link action becomes EXECUTED only through a completion, and records what the completion carried. */
  lemma ExecutedLinkComesFrom(s: Case, step: Step, cfg: Settings, i: nat)
    requires Core(s) && IsEnabled(s, step)
    requires var t := Apply(s, step, cfg); IsLinkAction(t, i) && t.actions[i].status.Executed?
    ensures var t := Apply(s, step, cfg);
            || (i < |s.actions| && s.actions[i] == t.actions[i])
            || (step.event.ExternalDone? && step.event.i == i && t.actions[i].link == step.event.result)
  {
    StepTransitions(s, step, cfg);
    StepEvolvesRows(s, step, cfg);
    if i < |s.actions| && !s.actions[i].status.Executed? {
      OnlySuccessExecutes(s, step, cfg, i);
    }
  }

  lemma LinksStayAgreed(s: Case, step: Step, links: seq<Link>, cfg: Settings)
    requires Core(s) && IsEnabled(s, step) && LinksAgree(s, links)
    requires step.event.ExternalDone? && IsLinkAction(s, step.event.i) ==>
               step.event.result.Some? && Records(links, step.event.i, step.event.result.value)
    ensures LinksAgree(Apply(s, step, cfg), links)
  {
    var t := Apply(s, step, cfg);
    StepEvolvesRows(s, step, cfg);
    forall i | 0 <= i < |t.actions| && t.actions[i].kind.CreatePaymentLink? && t.actions[i].status.Executed?
      ensures t.actions[i].link.Some? && Records(links, i, t.actions[i].link.value)
    {
      ExecutedLinkComesFrom(s, step, cfg, i);
    }
  }

  ghost predicate AttemptsGrow(old': seq<Action>, new': seq<Action>) {
    && |old'| <= |new'|
    && forall i :: 0 <= i < |old'| ==> new'[i].attempts >= old'[i].attempts
  }

  lemma RowsGrowAttempts(old': seq<Action>, new': seq<Action>, cfg: Settings)
    requires RowsTransition(old', new', cfg)
    ensures AttemptsGrow(old', new')
  {
    forall i | 0 <= i < |old'| ensures new'[i].attempts >= old'[i].attempts {
      assert RowTransition(old'[i], new'[i], cfg);
    }
  }

  lemma AttemptsNeverDrop(s: Case, t: Case, cfg: Settings)
    requires Core(s) && StepsTo(s, t, cfg)
    ensures AttemptsGrow(s.actions, t.actions)
  {
    if t != s {
      var step: Step :| IsEnabled(s, step) && t == Apply(s, step, cfg);
      StepTransitions(s, step, cfg);
      RowsGrowAttempts(s.actions, t.actions, cfg);
    }
  }

  lemma ClaimCountsAttempt(s: Case, i: nat, now: int, at: int, cfg: Settings)
    requires HasAction(s, i)
    ensures var t := Apply(s, Step(ClaimDue(i, now), at), cfg);
            && |t.actions| == |s.actions|
            && (forall j :: 0 <= j < |s.actions| && j != i ==> t.actions[j] == s.actions[j])
            && t.actions[i].attempts
               == s.actions[i].attempts + if s.actions[i].status.Scheduled?
                   && t.actions[i].status.Executing? then 1 else 0
  {
  }

  // ---- Moves keep the world sound ----

  lemma MoveKeepsInvariant(w: World, m: Move, cfg: Settings, caseId: string)
    requires Sound(w, cfg) && CanMove(w, m) && cfg.maxAttempts >= 1
    ensures Invariant(Next(w, m, cfg, caseId).db, cfg)
  {
    var t := Next(w, m, cfg, caseId).db;
    MovesStepTo(w, m, cfg, caseId);
    if t != w.db {
      var step: Step :| IsEnabled(w.db, step) && t == Apply(w.db, step, cfg);
      StepKeepsInvariant(w.db, step, cfg);
    }
  }

  lemma MoveGrowsLinks(w: World, m: Move, cfg: Settings, caseId: string)
    requires CanMove(w, m)
    ensures LinksGrow(w.links, Next(w, m, cfg, caseId).links)
  {
  }

  /** The provider accepts a reference once, so creating a link never breaks uniqueness. */
  lemma CallKeepsLinksSound(w: World, k: nat, outcome: CallOutcome, linkId: string, caseId: string)
    requires CanMove(w, Perform(k, outcome, linkId)) && LinksSound(w.db, w.links)
    ensures LinksSound(w.db, Performed(w, k, outcome, linkId, caseId).links)
  {
  }

  lemma MoveKeepsLinksSound(w: World, m: Move, cfg: Settings, caseId: string)
    requires Core(w.db) && LinksSound(w.db, w.links) && CanMove(w, m)
    ensures var v := Next(w, m, cfg, caseId); LinksSound(v.db, v.links)
  {
    var v := Next(w, m, cfg, caseId);
    MovesStepTo(w, m, cfg, caseId);
    if m.Perform? {
      CallKeepsLinksSound(w, m.w, m.outcome, m.linkId, caseId);
    } else if !m.LinkChanges? {
      LinksStaySound(w.db, v.db, w.links, cfg);
    }
  }

  lemma MoreLinksStillAgree(s: Case, old': seq<Link>, new': seq<Link>)
    requires LinksAgree(s, old') && LinksGrow(old', new')
    ensures LinksAgree(s, new')
  {
    forall i | 0 <= i < |s.actions| && s.actions[i].kind.CreatePaymentLink? && s.actions[i].status.Executed?
      ensures s.actions[i].link.Some? && Records(new', i, s.actions[i].link.value)
    {
      RecordsStay(old', new', i, s.actions[i].link.value);
    }
  }

  lemma MoveKeepsLinksAgreed(w: World, m: Move, cfg: Settings, caseId: string)
    requires Core(w.db) && LinksAgree(w.db, w.links) && PhasesSound(w) && CanMove(w, m)
    ensures var v := Next(w, m, cfg, caseId); LinksAgree(v.db, v.links)
  {
    match m
    case Commit(step) => LinksStayAgreed(w.db, step, w.links, cfg);
    case ClaimBy(k, i, now, at) => LinksStayAgreed(w.db, Step(ClaimDue(i, now), at), w.links, cfg);
    case Finish(k, now, at) =>
      assert PhaseSound(w.db, w.links, w.workers[k]);
      LinksStayAgreed(w.db, Step(FinalEvent(w.workers[k], now), at), w.links, cfg);
    case _ =>
      MoveGrowsLinks(w, m, cfg, caseId);
      MoreLinksStillAgree(w.db, w.links, Next(w, m, cfg, caseId).links);
  }

  /** The worker a move is about, if any. */
  function Mover(m: Move): Option<nat> {
    match m
    case Crash(k) => Some(k)
    case ClaimBy(k, _, _, _) => Some(k)
    case Snap(k) => Some(k)
    case Perform(k, _, _) => Some(k)
    case StartSweep(k, _) => Some(k)
    case Check(k, _) => Some(k)
    case Look(k, _) => Some(k)
    case Finish(k, _, _) => Some(k)
    case _ => None
  }

  lemma AnswerIsSound(w: World, k: nat, answer: Answer, caseId: string)
    requires CanMove(w, Look(k, answer)) && LinksSound(w.db, w.links)
    requires PhaseSound(w.db, w.links, w.workers[k])
    ensures PhaseSound(w.db, w.links, Looked(w, k, answer, caseId))
  {
    var Looking(i, snap, sweeping) := w.workers[k];
    ByReferenceIsUnique(w.links, i);
    var listed := ByReference(w.links, i);
    var lookup := FindPaymentLink(listed, i, caseId, snap);
    if lookup.Found? {
      assert listed[0] in listed;
      var l :| 0 <= l < |w.links| && w.links[l] == lookup.link;
      assert Records(w.links, i, lookup.link.linkId);
    }
  }

  /** An action found terminal or superseded stays so, which is what the delayed cancel needs. */
  lemma CheckIsSound(w: World, k: nat, cfg: Settings, now: int)
    requires CanMove(w, Check(k, now)) && Core(w.db)
    requires PhaseSound(w.db, w.links, w.workers[k])
    ensures PhaseSound(w.db, w.links, Checked(w, k, cfg, now))
  {
    if |w.db.actions| > 0 {
      NewestIsNotSuperseded(w.db);
    }
  }

  lemma CallIsSound(w: World, k: nat, outcome: CallOutcome, linkId: string, caseId: string)
    requires CanMove(w, Perform(k, outcome, linkId))
    requires PhaseSound(w.db, w.links, w.workers[k])
    ensures var v := Performed(w, k, outcome, linkId, caseId); PhaseSound(w.db, v.links, v.workers[k])
  {
    var v := Performed(w, k, outcome, linkId, caseId);
    if |v.links| > |w.links| {
      assert v.links[|w.links|].linkId == linkId && v.links[|w.links|].reference == Some(w.workers[k].i);
    }
  }

  lemma MoverIsSound(w: World, m: Move, cfg: Settings, caseId: string)
    requires Core(w.db) && LinksSound(w.db, w.links) && PhasesSound(w) && CanMove(w, m) && Mover(m).Some?
    ensures var v, k := Next(w, m, cfg, caseId), Mover(m).value;
            k < |v.workers| && PhaseSound(v.db, v.links, v.workers[k])
  {
    var k := Mover(m).value;
    assert PhaseSound(w.db, w.links, w.workers[k]);
    match m
    case ClaimBy(_, i, now, at) => StepEvolvesRows(w.db, Step(ClaimDue(i, now), at), cfg);
    case Perform(_, outcome, linkId) => CallIsSound(w, k, outcome, linkId, caseId);
    case Check(_, now) => CheckIsSound(w, k, cfg, now);
    case Look(_, answer) => AnswerIsSound(w, k, answer, caseId);
    case _ =>
  }

  lemma MoveKeepsPhasesSound(w: World, m: Move, cfg: Settings, caseId: string)
    requires Core(w.db) && LinksSound(w.db, w.links) && PhasesSound(w) && CanMove(w, m)
    ensures PhasesSound(Next(w, m, cfg, caseId))
  {
    var v := Next(w, m, cfg, caseId);
    MovesStepTo(w, m, cfg, caseId);
    MoveGrowsLinks(w, m, cfg, caseId);
    OthersStay(w, m, cfg, caseId);
    forall j | 0 <= j < |v.workers| ensures PhaseSound(v.db, v.links, v.workers[j]) {
      if Mover(m) == Some(j) {
        MoverIsSound(w, m, cfg, caseId);
      } else if j < |w.workers| {
        PhasesAreStable(w.db, v.db, w.links, v.links, w.workers[j], cfg);
      }
    }
  }

  lemma OthersStay(w: World, m: Move, cfg: Settings, caseId: string)
    requires CanMove(w, m)
    ensures var v := Next(w, m, cfg, caseId);
            && |w.workers| <= |v.workers|
            && (forall j :: 0 <= j < |w.workers| && Mover(m) != Some(j) ==> v.workers[j] == w.workers[j])
            && (forall j :: |w.workers| <= j < |v.workers| ==> v.workers[j] == Idle)
  {
  }

  // ---- Performs ----

  lemma StillPaid(w: World, v: World)
    requires CallsPaid(w) && AttemptsGrow(w.db.actions, v.db.actions) && v.calls == w.calls
    requires forall a: nat :: AboutToPerform(v.workers, a) <= AboutToPerform(w.workers, a)
    ensures CallsPaid(v)
  {
    forall a: nat ensures w.calls[a] + |AboutToPerform(v.workers, a)| <= if HasAction(v.db, a)
        then v.db.actions[a].attempts else 0 {
      ContactCap.SubsetIsSmaller(AboutToPerform(v.workers, a), AboutToPerform(w.workers, a));
    }
  }

  lemma ClaimAddsCaller(workers: seq<Phase>, k: nat, i: nat, a: nat)
    requires k < |workers| && workers[k].Idle?
    ensures |AboutToPerform(workers[k := Claimed(i)], a)| == |AboutToPerform(workers, a)| + if a == i then 1 else 0
  {
    var after := AboutToPerform(workers[k := Claimed(i)], a);
    if a == i {
      assert after == AboutToPerform(workers, a) + {k};
    } else {
      assert after == AboutToPerform(workers, a);
    }
  }

  /** One more claim pays for one more worker about to perform. */
  lemma PaidByClaim(w: World, v: World, k: nat, i: nat)
    requires CallsPaid(w) && AttemptsGrow(w.db.actions, v.db.actions) && v.calls == w.calls
    requires HasAction(w.db, i) && HasAction(v.db, i) && v.db.actions[i].attempts == w.db.actions[i].attempts + 1
    requires HasWorker(w, k) && w.workers[k].Idle? && v.workers == w.workers[k := Claimed(i)]
    ensures CallsPaid(v)
  {
    forall a: nat ensures w.calls[a] + |AboutToPerform(v.workers, a)| <= if HasAction(v.db, a)
        then v.db.actions[a].attempts else 0 {
      ClaimAddsCaller(w.workers, k, i, a);
    }
  }

  lemma ClaimPays(w: World, k: nat, i: nat, now: int, at: int, cfg: Settings, caseId: string)
    requires Core(w.db) && CallsPaid(w) && CanMove(w, ClaimBy(k, i, now, at))
    ensures CallsPaid(Next(w, ClaimBy(k, i, now, at), cfg, caseId))
  {
    var v := Next(w, ClaimBy(k, i, now, at), cfg, caseId);
    ClaimCountsAttempt(w.db, i, now, at, cfg);
    assert AttemptsGrow(w.db.actions, v.db.actions);
    if v.workers[k] == Claimed(i) {
      PaidByClaim(w, v, k, i);
    } else {
      StillPaid(w, v);
    }
  }

  lemma CallIsPaid(w: World, k: nat, outcome: CallOutcome, linkId: string, caseId: string)
    requires CallsPaid(w) && CanMove(w, Perform(k, outcome, linkId))
    ensures CallsPaid(Performed(w, k, outcome, linkId, caseId))
  {
    var v := Performed(w, k, outcome, linkId, caseId);
    var i := w.workers[k].i;
    forall a: nat ensures v.calls[a] + |AboutToPerform(v.workers, a)| <= if HasAction(v.db, a)
        then v.db.actions[a].attempts else 0 {
      if a == i {
        assert AboutToPerform(w.workers, a) == AboutToPerform(v.workers, a) + {k};
      } else {
        assert AboutToPerform(v.workers, a) == AboutToPerform(w.workers, a);
      }
    }
  }

  lemma QuietMovesAddNoCaller(w: World, m: Move, cfg: Settings, caseId: string, a: nat)
    requires CanMove(w, m) && !m.ClaimBy? && !m.Perform?
    ensures AboutToPerform(Next(w, m, cfg, caseId).workers, a) <= AboutToPerform(w.workers, a)
    ensures Next(w, m, cfg, caseId).calls == w.calls
  {
    OthersStay(w, m, cfg, caseId);
  }

  lemma QuietMovesStayPaid(w: World, m: Move, cfg: Settings, caseId: string)
    requires Core(w.db) && CallsPaid(w) && CanMove(w, m) && !m.ClaimBy? && !m.Perform?
    ensures CallsPaid(Next(w, m, cfg, caseId))
  {
    var v := Next(w, m, cfg, caseId);
    MovesStepTo(w, m, cfg, caseId);
    AttemptsNeverDrop(w.db, v.db, cfg);
    forall a: nat ensures AboutToPerform(v.workers, a) <= AboutToPerform(w.workers, a) {
      QuietMovesAddNoCaller(w, m, cfg, caseId, a);
    }
    QuietMovesAddNoCaller(w, m, cfg, caseId, 0);
    StillPaid(w, v);
  }

  lemma MoveKeepsPaid(w: World, m: Move, cfg: Settings, caseId: string)
    requires Core(w.db) && CallsPaid(w) && CanMove(w, m)
    ensures CallsPaid(Next(w, m, cfg, caseId))
  {
    match m
    case ClaimBy(k, i, now, at) => ClaimPays(w, k, i, now, at, cfg, caseId);
    case Perform(k, outcome, linkId) => CallIsPaid(w, k, outcome, linkId, caseId);
    case _ => QuietMovesStayPaid(w, m, cfg, caseId);
  }

  /** Every move of every worker, the provider and the environment keeps the world sound. */
  lemma MoveKeepsSound(w: World, m: Move, cfg: Settings, caseId: string)
    requires Sound(w, cfg) && CanMove(w, m) && cfg.maxAttempts >= 1
    ensures Sound(Next(w, m, cfg, caseId), cfg)
  {
    MoveKeepsInvariant(w, m, cfg, caseId);
    MoveKeepsLinksSound(w, m, cfg, caseId);
    MoveKeepsLinksAgreed(w, m, cfg, caseId);
    MoveKeepsPhasesSound(w, m, cfg, caseId);
    MoveKeepsPaid(w, m, cfg, caseId);
  }
}
