/** razorpay_client.py: what the lookup of a payment link accepts, over the answers of the list endpoint. */
module Provider {
  import opened Rows

  datatype LinkStatus = LinkCreated | PartiallyPaid | LinkPaidUp | Expired | LinkCancelled | OtherStatus

  /** A provider link; fields the provider may omit are optional. `reference` is the action it was made for. */
  datatype Link = Link(
    linkId: string, reference: Option<nat>, amount: Option<int>, currency: Option<string>,
    noteCase: Option<string>, noteAction: Option<nat>, status: LinkStatus)

  datatype Lookup = Absent | Found(link: Link) | Mismatch

  datatype Snapshot = Snapshot(amount: int, currency: string)

  /** `snapshot_case`. */
  function SnapshotOf(s: Case): Snapshot {
    Snapshot(s.amount, if s.currency == "" then "INR" else s.currency)
  }

  /** `find_payment_link_for_action` on a list the provider returned. */
  function FindPaymentLink(links: seq<Link>, action: nat, caseId: string, want: Snapshot): Lookup {
    if links == [] then Absent
    else if |links| > 1 then Mismatch
    else
      var link := links[0];
      if link.reference != Some(action) then Mismatch
      else if link.amount.Some? && link.amount.value != want.amount then Mismatch
      else if link.currency.Some? && link.currency.value != "" && link.currency.value != want.currency then Mismatch
      else if link.noteCase.Some? && link.noteCase.value != caseId then Mismatch
      else if link.noteAction.Some? && link.noteAction.value != action then Mismatch
      else if link.status.Expired? || link.status.LinkCancelled? then Mismatch
      else Found(link)
  }

  /** Made for this action and, where the provider says so, for this case, amount and currency; and still payable. */
  predicate IsAdoptable(l: Link, action: nat, caseId: string, want: Snapshot) {
    && l.reference == Some(action)
    && l.amount in {None, Some(want.amount)}
    && l.currency in {None, Some(""), Some(want.currency)}
    && l.noteCase in {None, Some(caseId)}
    && l.noteAction in {None, Some(action)}
    && l.status in {LinkCreated, PartiallyPaid, LinkPaidUp, OtherStatus}
  }

  /** Whatever the provider lists, the lookup adopts exactly a single adoptable link and calls only nothing absent. */
  lemma LookupAcceptsExactly(links: seq<Link>, action: nat, caseId: string, want: Snapshot)
    ensures FindPaymentLink(links, action, caseId, want)
            == if links == [] then Absent
               else if |links| == 1 && IsAdoptable(links[0], action, caseId, want) then Found(links[0])
               else Mismatch
  {
  }

  /** The link the client asks the provider for. */
  function RequestedLink(linkId: string, action: nat, caseId: string, snap: Snapshot): Link {
    Link(linkId, Some(action), Some(snap.amount), Some(snap.currency), Some(caseId), Some(action), LinkCreated)
  }

  /** `GET /payment_links?reference_id=...`. */
  function ByReference(links: seq<Link>, action: nat): seq<Link> {
    if links == [] then []
    else
      var rest := ByReference(links[1..], action);
      if links[0].reference == Some(action) then [links[0]] + rest else rest
  }

  ghost predicate UniqueReferences(links: seq<Link>) {
    forall i, j :: 0 <= i < j < |links| ==> links[i].reference != links[j].reference
  }

  predicate Holds(links: seq<Link>, action: nat) {
    exists k :: 0 <= k < |links| && links[k].reference == Some(action)
  }

  /** Where references are unique, the list for one action has at most one link, and has it when it exists. */
  lemma {:induction false} ByReferenceIsUnique(links: seq<Link>, action: nat)
    requires UniqueReferences(links)
    ensures |ByReference(links, action)| <= 1
    ensures ByReference(links, action) == [] <==> !Holds(links, action)
    ensures forall l :: l in ByReference(links, action) ==> l in links && l.reference == Some(action)
  {
    if links != [] {
      ByReferenceIsUnique(links[1..], action);
      assert forall k :: 0 <= k < |links| - 1 ==> links[k + 1] == links[1..][k];
      if links[0].reference == Some(action) {
        assert !Holds(links[1..], action);
      } else if Holds(links, action) {
        var k :| 0 <= k < |links| && links[k].reference == Some(action);
        assert links[1..][k - 1].reference == Some(action);
      }
    }
  }

  /**
    A link the client itself created passes the lookup exactly while the amount and currency of
    the case are what they were at creation and the link is neither expired nor cancelled.
   */
  lemma OwnLinkIsAdoptedExactly(
    links: seq<Link>, link: Link, linkId: string, action: nat, caseId: string, made: Snapshot, want: Snapshot)
    requires UniqueReferences(links) && link in links
    requires link == RequestedLink(linkId, action, caseId, made).(status := link.status)
    requires made.currency != ""
    ensures FindPaymentLink(ByReference(links, action), action, caseId, want) == Found(link) <==>
            want == made && !link.status.Expired? && !link.status.LinkCancelled?
    ensures !FindPaymentLink(ByReference(links, action), action, caseId, want).Absent?
  {
    ByReferenceIsUnique(links, action);
    var i :| 0 <= i < |links| && links[i] == link;
    assert Holds(links, action);
    var only := ByReference(links, action)[0];
    assert only in ByReference(links, action);
    var j :| 0 <= j < |links| && links[j] == only;
    assert i == j;
  }
}
