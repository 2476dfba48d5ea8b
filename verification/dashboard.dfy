/**
 The rental views of `src/pages/Dashboard.tsx`: the "Upcoming Rentals" panel
 (a filter on the status text, with an empty-state note), the status badge
 colour and the action buttons of each rental, the count badge on the
 Requests tab, and the toasts of the Accept/Decline buttons.
 */
module Dashboard {
  import opened Wrappers
  import opened Notify

  /** The fields of a rental the views read; the status is free text. */
  datatype Rental = Rental(id: string, itemName: string, status: string, price: int)

  /** A pending rental request. */
  datatype Request = Request(id: string, renterName: string, status: string)

  const UpcomingStatus := "Upcoming"
  const ActiveStatus := "Active"
  const CompletedStatus := "Completed"

  // ---------------------------------------------------------------- upcoming panel

  /** The rentals whose status is exactly "Upcoming", in their original order. */
  function Upcoming(rs: seq<Rental>): (u: seq<Rental>)
    ensures |u| <= |rs|
    ensures forall i :: 0 <= i < |u| ==> u[i].status == UpcomingStatus
    ensures forall r :: r in u <==> r in rs && r.status == UpcomingStatus
  {
    if rs == [] then []
    else (if rs[0].status == UpcomingStatus then [rs[0]] else []) + Upcoming(rs[1..])
  }

  /** Filtering distributes over concatenation, so the relative order of the kept rentals is the original one. */
  lemma {:induction false} UpcomingAppend(a: seq<Rental>, b: seq<Rental>)
    ensures Upcoming(a + b) == Upcoming(a) + Upcoming(b)
  {
    if a == [] {
      assert a + b == b;
    } else {
      assert (a + b)[1..] == a[1..] + b;
      UpcomingAppend(a[1..], b);
    }
  }

  /** On one rental the filter keeps it exactly when its status is "Upcoming". */
  lemma UpcomingSingle(r: Rental)
    ensures Upcoming([r]) == if r.status == UpcomingStatus then [r] else []
  {
    assert [r][1..] == [];
  }

  /** Filtering twice is filtering once. */
  lemma {:induction false} UpcomingIdempotent(rs: seq<Rental>)
    ensures Upcoming(Upcoming(rs)) == Upcoming(rs)
  {
    if rs != [] {
      var head := if rs[0].status == UpcomingStatus then [rs[0]] else [];
      UpcomingIdempotent(rs[1..]);
      UpcomingAppend(head, Upcoming(rs[1..]));
      if rs[0].status == UpcomingStatus {
        UpcomingSingle(rs[0]);
      }
    }
  }

  /** The three sample rentals the page renders: one active, one upcoming, one completed. */
  const SampleRentals := [
    Rental("1", "DSLR Camera Canon EOS 5D Mark IV", ActiveStatus, 105),
    Rental("2", "Mountain Bike - Trek X-Caliber 8", UpcomingStatus, 50),
    Rental("3", "Premium Tent for 4 Persons", CompletedStatus, 150)]

  /** On the sample data the panel shows the bike alone. */
  lemma SampleUpcoming()
    ensures Upcoming(SampleRentals) == [SampleRentals[1]]
  {
    var rs := SampleRentals;
    assert rs == [rs[0]] + [rs[1]] + [rs[2]];
    UpcomingAppend([rs[0]] + [rs[1]], [rs[2]]);
    UpcomingAppend([rs[0]], [rs[1]]);
    UpcomingSingle(rs[0]);
    UpcomingSingle(rs[1]);
    UpcomingSingle(rs[2]);
  }

  /** What the "Upcoming Rentals" panel shows. */
  datatype Panel =
    | Skeleton(placeholders: nat)
    | Cards(rentals: seq<Rental>, noneNote: bool)

  /** The panel: placeholders while loading, then the upcoming cards and, when there are none, the empty note. */
  function UpcomingPanel(loading: bool, rs: seq<Rental>): (p: Panel)
    ensures loading ==> p == Skeleton(2)
    ensures !loading ==> p.Cards? && p.rentals == Upcoming(rs)
    ensures !loading ==> (p.noneNote <==> forall i :: 0 <= i < |rs| ==> rs[i].status != UpcomingStatus)
  {
    if loading then Skeleton(2)
    else
      var u := Upcoming(rs);
      if u == [] then
        assert forall i :: 0 <= i < |rs| ==> rs[i] !in u;
        Cards(u, true)
      else
        assert u[0] in rs;
        Cards(u, false)
  }

  /**
   Once loaded, the panel shows either cards or the empty note, never both
   and never neither, and the cards are exactly the upcoming rentals in order.
   */
  lemma PanelCardsOrNote(rs: seq<Rental>)
    ensures var p := UpcomingPanel(false, rs);
            (p.noneNote <==> p.rentals == []) && p.rentals == Upcoming(rs)
  {
    var p := UpcomingPanel(false, rs);
    if p.rentals != [] {
      assert p.rentals[0] in rs;
    }
  }

  // ---------------------------------------------------------------- rental rows

  datatype Color = Green | Blue | Gray

  /** The status badge of a row in the "My Rentals" tab. */
  function BadgeColor(status: string): (c: Color)
    ensures c == Green <==> status == ActiveStatus
    ensures c == Blue <==> status == UpcomingStatus
    ensures c == Gray <==> status != ActiveStatus && status != UpcomingStatus
  {
    if status == ActiveStatus then Green
    else if status == UpcomingStatus then Blue
    else Gray
  }

  /** The buttons of a rental row. */
  datatype Actions = Actions(extension: bool, primaryLabel: string, primaryEnabled: bool)

  const LeaveReview := "Leave Review"
  const ViewDetails := "View Details"

  function RowActions(status: string): (a: Actions)
    ensures a.extension <==> status == ActiveStatus
    ensures a.primaryEnabled <==> status == CompletedStatus
    ensures a.primaryEnabled ==> a.primaryLabel == LeaveReview
    ensures !a.primaryEnabled ==> a.primaryLabel == ViewDetails
  {
    Actions(status == ActiveStatus,
            if status == CompletedStatus then LeaveReview else ViewDetails,
            status == CompletedStatus)
  }

  /** A row never offers an extension and an enabled primary button together, and the label names what the button does. */
  lemma RowActionsConsistent(status: string)
    ensures RowActions(status).extension ==> !RowActions(status).primaryEnabled
    ensures RowActions(status).primaryLabel == LeaveReview <==> RowActions(status).primaryEnabled
    ensures RowActions(status).extension <==> BadgeColor(status) == Green
  {
  }

  /**
   Every rental the upcoming panel lists has, as a row of the Rentals tab,
   the blue badge and only the disabled "View Details" button.
   */
  lemma UpcomingCardsLookUpcoming(rs: seq<Rental>, r: Rental)
    requires r in Upcoming(rs)
    ensures BadgeColor(r.status) == Blue
    ensures RowActions(r.status) == Actions(false, ViewDetails, false)
  {
  }

  // ---------------------------------------------------------------- requests tab

  /** The number on the Requests tab, absent when there are no requests. */
  function RequestsBadge(reqs: seq<Request>): (b: Option<int>)
    ensures b.Some? <==> reqs != []
    ensures b.Some? ==> b.value == |reqs| && b.value >= 1
  {
    if |reqs| > 0 then Some(|reqs|) else None
  }

  /** The badge disappears exactly when the list is empty, and one more request raises it by one. */
  lemma RequestsBadgeCounts(reqs: seq<Request>, r: Request)
    ensures RequestsBadge(reqs) == None <==> |reqs| == 0
    ensures RequestsBadge(reqs + [r]) == Some(RequestsBadge(reqs).GetOr(0) + 1)
  {
  }

  const Accepted := Toast("Request accepted", "You've approved the rental request.", Default)
  const Declined := Toast("Request declined", "You've declined the rental request.", Default)

  /** The Accept and Decline buttons: a fixed toast each, whatever the request. */
  function RespondToRequest(requestId: string, accept: bool): (t: Toast)
    ensures accept ==> t == Accepted
    ensures !accept ==> t == Declined
  {
    if accept then Accepted else Declined
  }

  /** Accepting and declining are always told apart, and the request itself never changes the message. */
  lemma ResponsesDistinct(id1: string, id2: string)
    ensures RespondToRequest(id1, true) != RespondToRequest(id2, false)
    ensures RespondToRequest(id1, true) == RespondToRequest(id2, true)
  {
  }
}
