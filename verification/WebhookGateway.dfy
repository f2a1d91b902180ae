/** The webhook endpoint as it updates the event log and the case it finds or opens. */
module WebhookEndpoint {
  import opened Rows
  import opened Orchestrator
  import opened CaseTransactions
  import opened TransactionMeaning
  import opened Webhooks

  predicate IsUnlinkedRecovery(e: PaymentEvent) { e.recovery && !e.linked }

  /** The newest recovery that no case has yet. */
  predicate IsLatestUnlinked(events: seq<PaymentEvent>, k: nat) {
    && k < |events| && IsUnlinkedRecovery(events[k])
    && forall j :: k < j < |events| ==> !IsUnlinkedRecovery(events[j])
  }

  predicate LinksLatest(before: seq<PaymentEvent>, after: seq<PaymentEvent>) {
    && |after| == |before|
    && forall k :: 0 <= k < |before| ==>
         after[k] == if IsLatestUnlinked(before, k) then before[k].(linked := true) else before[k]
  }

  /** The event is stored, linked to the case if there is one; opening a case links the latest recovery before it. */
  predicate StoresEvent(g: Gateway, h: Gateway, id: string, kind: HookKind) {
    var n := |g.events|;
    && |h.events| == n + 1
    && h.events[n] == PaymentEvent(id, kind.PaymentCapturedHook?, h.theCase.Some?)
    && if g.theCase.None? && h.theCase.Some? then LinksLatest(g.events, h.events[..n]) else h.events[..n] == g.events
  }

  /**
    What a delivery means. A failure opens the case, recovered at once if an unlinked capture came
    first, or is taken by the open one; a capture and a dispute wait for a case.
   */
  predicate DeliveryMeans(g: Gateway, h: Gateway, id: string, kind: HookKind, cfg: Settings) {
    if exists k :: 0 <= k < |g.events| && g.events[k].id == id then h == g
    else
      && StoresEvent(g, h, id, kind)
      && match kind
         case PaymentFailed(category, amount, currency, mode, now) =>
           && h.theCase.Some?
           && (if g.theCase.Some? then FailureMeans(g.theCase.value, h.theCase.value, category, None, mode, now, cfg)
               else
                 var captured := exists k :: 0 <= k < |g.events| && IsUnlinkedRecovery(g.events[k]);
                 OpeningMeans(h.theCase.value, category, amount, currency, false, captured, mode, now, cfg))
         case PaymentCapturedHook =>
           if g.theCase.Some? then h.theCase.Some? && CaptureMeans(g.theCase.value, h.theCase.value)
           else h.theCase.None?
         case DisputeCreated =>
           if g.theCase.Some? then h.theCase.Some? && DisputeMeans(g.theCase.value, h.theCase.value)
           else h.theCase.None?
  }

  class WebhookGateway {
    const cfg: Settings
    var events: seq<PaymentEvent>
    var theCase: RevenueCase?

    ghost predicate Valid()
      reads this, theCase
    {
      && cfg.maxAttempts >= 1
      && (theCase != null ==> theCase.cfg == cfg && theCase.Valid())
    }

    function View(): Gateway
      reads this, theCase
    {
      Gateway(events, if theCase == null then None else Some(theCase.View()))
    }

    constructor (cfg: Settings)
      requires cfg.maxAttempts >= 1
      ensures Valid() && this.cfg == cfg && View() == Gateway([], None)
    {
      this.cfg := cfg;
      events := [];
      theCase := null;
    }

    /** The lookup and linking of `_prior_unlinked_recovery`, newest event first. */
    method TakeUnlinkedRecovery() returns (found: bool)
      modifies `events
      ensures found == HasUnlinkedRecovery(old(events))
      ensures events == if found then LinkLatestRecovery(old(events)) else old(events)
      ensures LinksLatest(old(events), events)
    {
      var k := |events|;
      while k > 0
        invariant 0 <= k <= |events|
        invariant events == old(events)
        invariant forall j :: k <= j < |events| ==> !(events[j].recovery && !events[j].linked)
      {
        k := k - 1;
        if events[k].recovery && !events[k].linked {
          LinksTheLatest(events, k);
          events := events[k := events[k].(linked := true)];
          return true;
        }
      }
      return false;
    }

    /** `_handle_failure` when no case exists: a capture that came first decides the outcome. */
    method OpenFromFailure(kind: HookKind, at: int)
      requires Valid() && theCase == null && kind.PaymentFailed? && kind.now <= at
      modifies this
      ensures Valid() && theCase != null && fresh(theCase)
      ensures var captured := HasUnlinkedRecovery(old(events));
              && theCase.View() == OpenCase(kind.category, kind.amount, kind.currency, false, captured, kind.mode,
                  cfg, kind.now, at)
              && events == (if captured then LinkLatestRecovery(old(events)) else old(events))
              && LinksLatest(old(events), events)
              && OpeningMeans(theCase.View(), kind.category, kind.amount, kind.currency, false, captured, kind.mode,
                  kind.now, cfg)
    {
      var captured := TakeUnlinkedRecovery();
      theCase := new RevenueCase.Open(cfg, kind.category, kind.amount, kind.currency, false, captured, kind.mode,
          kind.now, at);
    }

    /** A new failure event. */
    method TakeFailed(id: string, kind: HookKind, at: int)
      requires Valid() && !WasSeen(events, id) && kind.PaymentFailed? && IsValidItem(View(), Deliver(id, kind, at))
      modifies this, theCase
      ensures Valid() && (theCase == old(theCase) || (old(theCase) == null && fresh(theCase)))
      ensures View() == Delivered(old(View()), id, kind, at, cfg)
      ensures DeliveryMeans(old(View()), View(), id, kind, cfg)
    {
      if theCase == null {
        OpenFromFailure(kind, at);
      } else {
        theCase.OnFailure(kind.category, None, kind.mode, kind.now, at);
      }
      events := events + [PaymentEvent(id, false, true)];
    }

    /**
      `razorpay_webhook`: store the event, handle it, commit; a seen id changes nothing. From a case
      that satisfies the invariants of the runs to one that does.
     */
    method RazorpayWebhook(id: string, kind: HookKind, at: int) returns (processed: bool)
      requires Valid() && (!WasSeen(events, id) ==> IsValidItem(View(), Deliver(id, kind, at)))
      modifies this, theCase
      ensures Valid()
      ensures processed == !WasSeen(old(events), id)
      ensures View() == Delivered(old(View()), id, kind, at, cfg)
      ensures DeliveryMeans(old(View()), View(), id, kind, cfg)
      ensures theCase == old(theCase) || (old(theCase) == null && fresh(theCase))
    {
      if WasSeen(events, id) {
        return false;
      }
      if kind.PaymentFailed? {
        TakeFailed(id, kind, at);
      } else if kind.PaymentCapturedHook? {
        if theCase != null {
          theCase.OnPaymentCaptured(at);
        }
        events := events + [PaymentEvent(id, true, theCase != null)];
      } else {
        if theCase != null {
          var previous := theCase.OnDispute(at);
        }
        events := events + [PaymentEvent(id, false, theCase != null)];
      }
      return true;
    }
  }

  lemma {:induction false} LinksTheLatest(events: seq<PaymentEvent>, k: nat)
    requires k < |events| && events[k].recovery && !events[k].linked
    requires forall j :: k < j < |events| ==> !(events[j].recovery && !events[j].linked)
    ensures LinkLatestRecovery(events) == events[k := events[k].(linked := true)]
    decreases |events|
  {
    var n := |events| - 1;
    if k < n {
      LinksTheLatest(events[..n], k);
      assert events[k := events[k].(linked := true)] == events[..n][k := events[k].(linked := true)] + [events[n]];
    } else {
      assert events[k := events[k].(linked := true)] == events[..n] + [events[n].(linked := true)];
    }
  }
}
