/**
  webhooks.py over one payment id without a subscription: dedupe by event id, handle, commit.
  Deliveries may interleave with any worker, reconciler or reply step that is neither a
  mismatch write nor a customer dispute.
 */
module Webhooks {
  import opened Rows
  import opened PolicyDispatch
  import opened Orchestrator
  import opened Protocol
  import opened LiveAction
  import opened Latch

  datatype HookKind =
    | PaymentFailed(category: Category, amount: Option<int>, currency: string, mode: Mode, now: int)
    | PaymentCapturedHook
    | DisputeCreated

  /** A `payment_events` row: its unique id, whether it is a recovery, and whether it is linked to the case. */
  datatype PaymentEvent = PaymentEvent(id: string, recovery: bool, linked: bool)

  datatype Gateway = Gateway(events: seq<PaymentEvent>, theCase: Option<Case>)

  datatype Item = Deliver(id: string, kind: HookKind, at: int) | Inner(step: Step)

  predicate WasSeen(events: seq<PaymentEvent>, id: string) {
    exists k :: 0 <= k < |events| && events[k].id == id
  }

  predicate HasUnlinkedRecovery(events: seq<PaymentEvent>) {
    exists k :: 0 <= k < |events| && events[k].recovery && !events[k].linked
  }

  /** `_prior_unlinked_recovery` takes the latest one and links it to the new case. */
  function LinkLatestRecovery(events: seq<PaymentEvent>): seq<PaymentEvent> {
    if events == [] then []
    else
      var n := |events| - 1;
      if events[n].recovery && !events[n].linked then events[..n] + [events[n].(linked := true)]
      else LinkLatestRecovery(events[..n]) + [events[n]]
  }

  function FailedStep(kind: HookKind, at: int): Step
    requires kind.PaymentFailed?
  {
    Step(FailureReported(kind.category, None, kind.mode, kind.now), at)
  }

  /** `razorpay_webhook` for one delivery. */
  function Delivered(g: Gateway, id: string, kind: HookKind, at: int, cfg: Settings): Gateway {
    if WasSeen(g.events, id) then g
    else match (kind, g.theCase)
      case (PaymentFailed(category, amount, currency, mode, now), None) =>
        var captured := HasUnlinkedRecovery(g.events);
        var events := if captured then LinkLatestRecovery(g.events) else g.events;
        Gateway(events + [PaymentEvent(id, false, true)],
                Some(OpenCase(category, amount, currency, false, captured, mode, cfg, now, at)))
      case (PaymentFailed(_, _, _, _, _), Some(c)) =>
        Gateway(g.events + [PaymentEvent(id, false, true)], Some(Apply(c, FailedStep(kind, at), cfg)))
      case (PaymentCapturedHook, None) => g.(events := g.events + [PaymentEvent(id, true, false)])
      case (PaymentCapturedHook, Some(c)) =>
        Gateway(g.events + [PaymentEvent(id, true, true)], Some(Apply(c, Step(PaymentCaptured, at), cfg)))
      case (DisputeCreated, None) => g.(events := g.events + [PaymentEvent(id, false, false)])
      case (DisputeCreated, Some(c)) =>
        Gateway(g.events + [PaymentEvent(id, false, true)], Some(Apply(c, Step(DisputeOpened, at), cfg)))
  }

  /** The steps that may run between deliveries. */
  predicate IsInner(e: Event) {
    || (!IsInbound(e) && !e.LinkMismatch?)
    || (e.CustomerReplied? && !e.extraction.intent.DisputeIntent? && !e.extraction.intent.PaymentClaim?)
  }

  function Handled(g: Gateway, item: Item, cfg: Settings): Gateway
    requires IsValidItem(g, item)
  {
    match item
    case Deliver(id, kind, at) => Delivered(g, id, kind, at, cfg)
    case Inner(step) => g.(theCase := Some(Apply(g.theCase.value, step, cfg)))
  }

  /** Commits come in order; what the workers do needs a case. */
  predicate IsValidItem(g: Gateway, item: Item) {
    match item
    case Deliver(_, kind, at) =>
      && (kind.PaymentFailed? ==> kind.now <= at)
      && (g.theCase.Some? ==> at > g.theCase.value.clock)
    case Inner(step) => g.theCase.Some? && IsEnabled(g.theCase.value, step) && IsInner(step.event)
  }

  ghost predicate IsTrace(items: seq<Item>, g: Gateway, cfg: Settings)
    decreases |items|
  {
    if items == [] then g == Gateway([], None)
    else exists f: Gateway :: ReachesBy(items, f, g, cfg)
  }

  ghost predicate ReachesBy(items: seq<Item>, f: Gateway, g: Gateway, cfg: Settings)
    requires items != []
    decreases |items|, 0
  {
    var last := items[|items| - 1];
    IsTrace(items[..|items| - 1], f, cfg) && IsValidItem(f, last) && g == Handled(f, last, cfg)
  }

  // ---- The closed form ----

  predicate DeliversId(item: Item, id: string) { item.Deliver? && item.id == id }

  /** Delivery `k` is the first with its event id. */
  ghost predicate IsFirst(items: seq<Item>, k: nat) {
    && k < |items| && items[k].Deliver?
    && forall j :: 0 <= j < k ==> !DeliversId(items[j], items[k].id)
  }

  ghost predicate FailedAt(items: seq<Item>, k: nat) { IsFirst(items, k) && items[k].kind.PaymentFailed? }
  ghost predicate CapturedAt(items: seq<Item>, k: nat) { IsFirst(items, k) && items[k].kind.PaymentCapturedHook? }
  ghost predicate DisputedAt(items: seq<Item>, k: nat) { IsFirst(items, k) && items[k].kind.DisputeCreated? }

  ghost predicate Failed(items: seq<Item>) { exists k: nat :: FailedAt(items, k) }
  ghost predicate WasCaptured(items: seq<Item>) { exists k: nat :: CapturedAt(items, k) }
  ghost predicate DisputedAfterFailure(items: seq<Item>) {
    exists j: nat, k: nat :: j < k && FailedAt(items, j) && DisputedAt(items, k)
  }

  ghost predicate ClosedForm(items: seq<Item>, g: Gateway) {
    && (g.theCase.Some? <==> Failed(items))
    && (g.theCase.Some? ==>
        var s := g.theCase.value;
        && (s.state.Disputed? <==> DisputedAfterFailure(items))
        && (s.state.Recovered? <==> !DisputedAfterFailure(items) && WasCaptured(items))
        && (s.state.Disputed? || s.state.Recovered? ==>
              forall i :: 0 <= i < |s.actions| ==> !s.actions[i].status.Scheduled?))
  }

  /** What the induction carries besides the closed form. */
  ghost predicate Tracked(items: seq<Item>, g: Gateway) {
    && ClosedForm(items, g)
    && (g.theCase.None? ==> (HasUnlinkedRecovery(g.events) <==> WasCaptured(items)))
    && (g.theCase.Some? ==> Core(g.theCase.value))
    && (forall id :: WasSeen(g.events, id) <==> exists k :: 0 <= k < |items| && DeliversId(items[k], id))
  }

  lemma FirstsOfPrefix(items: seq<Item>, last: Item, k: nat)
    requires k < |items|
    ensures IsFirst(items + [last], k) <==> IsFirst(items, k)
    ensures (items + [last])[k] == items[k]
  {
    assert forall j :: 0 <= j < |items| ==> (items + [last])[j] == items[j];
  }

  /** A delivery is news exactly when its id was not seen. */
  lemma LastIsFirst(items: seq<Item>, g: Gateway, last: Item)
    requires Tracked(items, g) && last.Deliver?
    ensures IsFirst(items + [last], |items|) <==> !WasSeen(g.events, last.id)
  {
    var all := items + [last];
    assert forall j :: 0 <= j < |items| ==> all[j] == items[j];
  }

  lemma FailedGrows(items: seq<Item>, last: Item)
    ensures Failed(items + [last]) <==> Failed(items) || FailedAt(items + [last], |items|)
  {
    var all := items + [last];
    if Failed(items) {
      var k: nat :| FailedAt(items, k);
      FirstsOfPrefix(items, last, k);
      assert FailedAt(all, k);
    }
    if Failed(all) && !FailedAt(all, |items|) {
      var k: nat :| FailedAt(all, k);
      FirstsOfPrefix(items, last, k);
      assert FailedAt(items, k);
    }
  }

  lemma CapturedGrows(items: seq<Item>, last: Item)
    ensures WasCaptured(items + [last]) <==> WasCaptured(items) || CapturedAt(items + [last], |items|)
  {
    var all := items + [last];
    if WasCaptured(items) {
      var k: nat :| CapturedAt(items, k);
      FirstsOfPrefix(items, last, k);
      assert CapturedAt(all, k);
    }
    if WasCaptured(all) && !CapturedAt(all, |items|) {
      var k: nat :| CapturedAt(all, k);
      FirstsOfPrefix(items, last, k);
      assert CapturedAt(items, k);
    }
  }

  lemma DisputedGrows(items: seq<Item>, last: Item)
    ensures DisputedAfterFailure(items + [last]) <==>
            DisputedAfterFailure(items) || (Failed(items) && DisputedAt(items + [last], |items|))
  {
    var all := items + [last];
    if DisputedAfterFailure(items) {
      var j: nat, k: nat :| j < k && FailedAt(items, j) && DisputedAt(items, k);
      FirstsOfPrefix(items, last, j);
      FirstsOfPrefix(items, last, k);
      assert FailedAt(all, j) && DisputedAt(all, k);
    }
    if Failed(items) && DisputedAt(all, |items|) {
      var j: nat :| FailedAt(items, j);
      FirstsOfPrefix(items, last, j);
      assert FailedAt(all, j);
    }
    if DisputedAfterFailure(all) {
      var j: nat, k: nat :| j < k && FailedAt(all, j) && DisputedAt(all, k);
      FirstsOfPrefix(items, last, j);
      assert FailedAt(items, j);
      if k < |items| {
        FirstsOfPrefix(items, last, k);
        assert DisputedAt(items, k);
      }
    }
  }

  lemma SeenGrows(items: seq<Item>, last: Item, events: seq<PaymentEvent>, events': seq<PaymentEvent>)
    requires forall id :: WasSeen(events, id) <==> exists k :: 0 <= k < |items| && DeliversId(items[k], id)
    requires forall id :: WasSeen(events', id) <==> WasSeen(events, id) || DeliversId(last, id)
    ensures forall id :: WasSeen(events', id) <==>
        exists k :: 0 <= k < |items + [last]| && DeliversId((items + [last])[k], id)
  {
    var all := items + [last];
    forall id ensures WasSeen(events', id) <==> exists k :: 0 <= k < |all| && DeliversId(all[k], id) {
      if WasSeen(events, id) {
        var k :| 0 <= k < |items| && DeliversId(items[k], id);
        assert DeliversId(all[k], id);
      }
      if DeliversId(last, id) {
        assert DeliversId(all[|items|], id);
      }
    }
  }

  lemma {:induction false} LinkingKeepsIds(events: seq<PaymentEvent>)
    ensures |LinkLatestRecovery(events)| == |events|
    ensures forall k :: 0 <= k < |events| ==> LinkLatestRecovery(events)[k].id == events[k].id
  {
    if events != [] {
      LinkingKeepsIds(events[..|events| - 1]);
    }
  }

  lemma AppendedSeen(events: seq<PaymentEvent>, base: seq<PaymentEvent>, e: PaymentEvent, id: string)
    requires |base| == |events| && forall k :: 0 <= k < |events| ==> base[k].id == events[k].id
    ensures WasSeen(base + [e], id) <==> WasSeen(events, id) || e.id == id
  {
    var all := base + [e];
    if WasSeen(events, id) {
      var k :| 0 <= k < |events| && events[k].id == id;
      assert all[k].id == id;
    }
    if e.id == id {
      assert all[|base|].id == id;
    }
    if WasSeen(all, id) {
      var k :| 0 <= k < |all| && all[k].id == id;
      if k < |events| {
        assert events[k].id == id;
      }
    }
  }

  lemma DeliverySeen(g: Gateway, id: string, kind: HookKind, at: int, cfg: Settings)
    ensures forall x :: WasSeen(Delivered(g, id, kind, at, cfg).events, x) <==> WasSeen(g.events, x) || x == id
  {
    var h := Delivered(g, id, kind, at, cfg);
    LinkingKeepsIds(g.events);
    forall x ensures WasSeen(h.events, x) <==> WasSeen(g.events, x) || x == id {
      if !WasSeen(g.events, id) {
        var n := |h.events| - 1;
        assert h.events == h.events[..n] + [h.events[n]];
        AppendedSeen(g.events, h.events[..n], h.events[n], x);
      }
    }
  }

  lemma OpenCaseState(category: Category, amount: Option<int>, currency: string, captured: bool, mode: Mode,
      cfg: Settings, now: int, at: int)
    ensures var s := OpenCase(category, amount, currency, false, captured, mode, cfg, now, at);
            Core(s) && !s.state.Disputed? && (s.state.Recovered? <==> captured)
  {
    OpenedCaseIsCore(Opening(category, amount, currency, false, captured, mode, now, at), cfg);
  }

  lemma FailureNeverCloses(s: Case, step: Step, cfg: Settings)
    requires Core(s) && IsEnabled(s, step) && step.event.FailureReported?
    ensures var t := Apply(s, step, cfg);
            (t.state.Disputed? <==> s.state.Disputed?) && (t.state.Recovered? <==> s.state.Recovered?)
  {
  }

  lemma InnerNeverCloses(s: Case, step: Step, cfg: Settings)
    requires Core(s) && IsEnabled(s, step) && IsInner(step.event)
    ensures var t := Apply(s, step, cfg);
            (t.state.Disputed? <==> s.state.Disputed?) && (t.state.Recovered? <==> s.state.Recovered?)
  {
    if IsTerminal(s.state) {
      TerminalOrder(s, step, cfg);
    }
  }

  lemma InnerStaysTracked(items: seq<Item>, g: Gateway, step: Step, cfg: Settings)
    requires Tracked(items, g) && IsValidItem(g, Inner(step))
    ensures Tracked(items + [Inner(step)], Handled(g, Inner(step), cfg))
  {
    var s := g.theCase.value;
    StepKeepsCore(s, step, cfg);
    InnerNeverCloses(s, step, cfg);
    FailedGrows(items, Inner(step));
    CapturedGrows(items, Inner(step));
    DisputedGrows(items, Inner(step));
    SeenGrows(items, Inner(step), g.events, g.events);
  }

  /** What a first delivery does to the case, in every combination. */
  lemma NewsMovesCase(g: Gateway, id: string, kind: HookKind, at: int, cfg: Settings)
    requires IsValidItem(g, Deliver(id, kind, at)) && !WasSeen(g.events, id)
    requires g.theCase.Some? ==> Core(g.theCase.value)
    ensures var h := Delivered(g, id, kind, at, cfg);
            && (h.theCase.Some? <==> g.theCase.Some? || kind.PaymentFailed?)
            && (h.theCase.Some? ==>
                var t := h.theCase.value;
                var wasDisputed := g.theCase.Some? && g.theCase.value.state.Disputed?;
                var wasRecovered := if g.theCase.Some? then g.theCase.value.state.Recovered?
                    else HasUnlinkedRecovery(g.events);
                && Core(t)
                && (t.state.Disputed? <==> wasDisputed || (kind.DisputeCreated? && g.theCase.Some?))
                && (t.state.Recovered? <==> !t.state.Disputed? && (wasRecovered || kind.PaymentCapturedHook?)))
            && (h.theCase.None? ==> (HasUnlinkedRecovery(h.events) <==>
                HasUnlinkedRecovery(g.events) || kind.PaymentCapturedHook?))
  {
    var h := Delivered(g, id, kind, at, cfg);
    if g.theCase.None? {
      if kind.PaymentFailed? {
        OpenCaseState(kind.category, kind.amount, kind.currency, HasUnlinkedRecovery(g.events), kind.mode, cfg,
            kind.now, at);
      } else {
        var e := h.events[|g.events|];
        UnlinkedGrows(g.events, e);
      }
    } else {
      var s := g.theCase.value;
      match kind
      case PaymentFailed(_, _, _, _, _) =>
        StepKeepsCore(s, FailedStep(kind, at), cfg);
        FailureNeverCloses(s, FailedStep(kind, at), cfg);
      case PaymentCapturedHook => StepKeepsCore(s, Step(PaymentCaptured, at), cfg);
      case DisputeCreated => StepKeepsCore(s, Step(DisputeOpened, at), cfg);
    }
  }

  lemma UnlinkedGrows(events: seq<PaymentEvent>, e: PaymentEvent)
    ensures HasUnlinkedRecovery(events + [e]) <==> HasUnlinkedRecovery(events) || (e.recovery && !e.linked)
  {
    var all := events + [e];
    if HasUnlinkedRecovery(events) {
      var k :| 0 <= k < |events| && events[k].recovery && !events[k].linked;
      assert all[k].recovery && !all[k].linked;
    }
    if e.recovery && !e.linked {
      assert all[|events|].recovery && !all[|events|].linked;
    }
  }

  lemma DeliveryStaysTracked(items: seq<Item>, g: Gateway, last: Item, cfg: Settings)
    requires Tracked(items, g) && IsValidItem(g, last) && last.Deliver?
    ensures Tracked(items + [last], Handled(g, last, cfg))
  {
    var h := Handled(g, last, cfg);
    LastIsFirst(items, g, last);
    FailedGrows(items, last);
    CapturedGrows(items, last);
    DisputedGrows(items, last);
    DeliverySeen(g, last.id, last.kind, last.at, cfg);
    SeenGrows(items, last, g.events, h.events);
    assert (items + [last])[|items|] == last;
    if !WasSeen(g.events, last.id) {
      NewsMovesCase(g, last.id, last.kind, last.at, cfg);
    }
  }

  lemma {:induction false} TraceIsTracked(items: seq<Item>, g: Gateway, cfg: Settings)
    requires IsTrace(items, g, cfg)
    ensures Tracked(items, g)
    decreases |items|
  {
    if items != [] {
      var f: Gateway :| ReachesBy(items, f, g, cfg);
      var init, last := items[..|items| - 1], items[|items| - 1];
      TraceIsTracked(init, f, cfg);
      assert items == init + [last];
      if last.Deliver? {
        DeliveryStaysTracked(init, f, last, cfg);
      } else {
        InnerStaysTracked(init, f, last.step, cfg);
      }
    }
  }

  /**
    The fold in closed form: no case if nothing failed; DISPUTED if a dispute follows a failure;
    else RECOVERED if a capture came at any time, even before the failure; and in both final
    states nothing is SCHEDULED. Only the first delivery of an event id counts.
   */
  lemma WebhookFold(items: seq<Item>, g: Gateway, cfg: Settings)
    requires IsTrace(items, g, cfg)
    ensures ClosedForm(items, g)
  {
    TraceIsTracked(items, g, cfg);
  }

  /** Redelivering an event changes nothing, at any later point of any trace. */
  lemma RedeliveryChangesNothing(items: seq<Item>, g: Gateway, k: nat, kind: HookKind, at: int, cfg: Settings)
    requires IsTrace(items, g, cfg) && k < |items| && items[k].Deliver?
    ensures Delivered(g, items[k].id, kind, at, cfg) == g
  {
    TraceIsTracked(items, g, cfg);
    assert DeliversId(items[k], items[k].id);
  }
}
