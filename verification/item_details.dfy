/**
 The booking side of `src/pages/ItemDetails.tsx`: the cyclic image carousel,
 the rental-day count and subtotal (dates as whole day numbers), the date
 dialog, and the login gates on booking, favourites and reviews.
 */
module ItemDetails {
  import opened Wrappers
  import opened Notify
  import opened Modular

  /** The fields of the loaded item the booking logic reads. */
  datatype Item = Item(id: string, price: real, imageCount: int)

  datatype Booking = Booking(
    start: Option<int>, end: Option<int>,
    totalDays: int, totalPrice: real,
    pickerOpen: bool, favorited: bool)

  const InitialBooking := Booking(None, None, 0, 0.0, false, false)

  const AuthToFavorite := Toast("Authentication required", "Please log in to save items to your favorites.", Default)
  const AuthToBook := Toast("Authentication required", "Please log in to book this item.", Default)
  const AuthToReview := Toast("Authentication required", "Please log in to leave a review.", Default)
  const Added := Toast("Added to favorites", "This item has been added to your favorites.", Default)
  const Removed := Toast("Removed from favorites", "This item has been removed from your favorites.", Default)
  const ComingSoon := Toast("Feature coming soon", "This feature is still under development.", Default)
  const DatesRequired := Toast("Date selection required", "Please select both start and end dates.", Default)
  const ConfirmationPath := "/bookings/confirmation"

  // ---------------------------------------------------------------- carousel

  /** `handleNextImage`, including the arithmetic it does when the item has no images. */
  function NextImage(item: Option<Item>, i: int): (r: int)
    ensures item == None ==> r == i
    ensures item.Some? && i == item.value.imageCount - 1 ==> r == 0
    ensures item.Some? && i != item.value.imageCount - 1 ==> r == i + 1
  {
    match item
    case None => i
    case Some(it) => if i == it.imageCount - 1 then 0 else i + 1
  }

  /** `handlePrevImage`. */
  function PrevImage(item: Option<Item>, i: int): (r: int)
    ensures item == None ==> r == i
    ensures item.Some? && i == 0 ==> r == item.value.imageCount - 1
    ensures item.Some? && i != 0 ==> r == i - 1
  {
    match item
    case None => i
    case Some(it) => if i == 0 then it.imageCount - 1 else i - 1
  }

  /** Both moves keep an in-range index in range. */
  lemma CarouselInRange(it: Item, i: int)
    requires 0 <= i < it.imageCount
    ensures 0 <= NextImage(Some(it), i) < it.imageCount
    ensures 0 <= PrevImage(Some(it), i) < it.imageCount
  {
  }

  /** Prev undoes Next and Next undoes Prev. */
  lemma PrevNextInverse(it: Item, i: int)
    requires 0 <= i < it.imageCount
    ensures PrevImage(Some(it), NextImage(Some(it), i)) == i
    ensures NextImage(Some(it), PrevImage(Some(it), i)) == i
  {
  }

  function NextTimes(item: Option<Item>, i: int, k: nat): int {
    if k == 0 then i else NextImage(item, NextTimes(item, i, k - 1))
  }

  /** `k` presses of Next move an in-range index `k` places round the circle. */
  lemma {:induction false} NextTimesModular(it: Item, i: int, k: nat)
    requires 0 <= i < it.imageCount
    ensures NextTimes(Some(it), i, k) == (i + k) % it.imageCount
  {
    var n := it.imageCount;
    if k == 0 {
      ModUnique(i, n, 0, i);
    } else {
      NextTimesModular(it, i, k - 1);
      ModStep(i + k - 1, n);
    }
  }

  /** After as many presses as there are images the carousel is back where it started. */
  lemma FullCircle(it: Item, i: int)
    requires 0 <= i < it.imageCount
    ensures NextTimes(Some(it), i, it.imageCount) == i
  {
    NextTimesModular(it, i, it.imageCount);
    ModUnique(i + it.imageCount, it.imageCount, 1, i);
  }

  /** The highlighted dot and ringed thumbnail: the one whose position is the current index. */
  function Dots(it: Item, current: int): (d: seq<bool>)
    ensures |d| == if it.imageCount > 0 then it.imageCount else 0
    ensures forall k :: 0 <= k < |d| ==> (d[k] <==> k == current)
  {
    if it.imageCount > 0 then seq(it.imageCount, k => k == current) else []
  }

  /** A click on dot or thumbnail `k`, one of those rendered: exactly that one becomes highlighted. */
  function ClickDot(it: Item, k: int): (r: int)
    requires 0 <= k < it.imageCount
    ensures Dots(it, r)[k]
    ensures forall j :: 0 <= j < it.imageCount && Dots(it, r)[j] ==> j == k
  {
    k
  }

  /** A jump reaches no image that Next would not: clicking dot `j` lands where `(j - i) % n` Next presses do. */
  lemma JumpReachable(it: Item, i: int, j: int)
    requires 0 <= i < it.imageCount && 0 <= j < it.imageCount
    ensures NextTimes(Some(it), i, (j - i) % it.imageCount) == ClickDot(it, j)
  {
    var n := it.imageCount;
    var k := (j - i) % n;
    NextTimesModular(it, i, k);
    ModUnique(i + k, n, -((j - i) / n), j);
  }

  // ---------------------------------------------------------------- dates and price

  /** Whole days between two dates, both ends included. */
  function RentalDays(start: int, end: int): (d: int)
    ensures d >= 1
    ensures d - 1 == end - start || d - 1 == start - end
  {
    (if end >= start then end - start else start - end) + 1
  }

  /** The count does not depend on which date was picked first. */
  lemma RentalDaysSymmetric(start: int, end: int)
    ensures RentalDays(start, end) == RentalDays(end, start)
  {
  }

  /** `item?.price || 0`: the price, or zero before the item has loaded (a zero price reads the same). */
  function PriceOrZero(item: Option<Item>): (p: real)
    ensures item == None ==> p == 0.0
    ensures item.Some? ==> p == item.value.price
  {
    match item
    case Some(it) => it.price
    case None => 0.0
  }

  /** The subtotal: days times the item's price. */
  function Subtotal(days: int, item: Option<Item>): (p: real)
    ensures item == None ==> p == 0.0
    ensures item.Some? ==> p == days as real * item.value.price
  {
    days as real * PriceOrZero(item)
  }

  /**
   The subtotal is the price summed day by day: it adds up over a split of
   the days, and with a non-negative price a longer rental never costs less.
   */
  lemma SubtotalAdditive(d1: int, d2: int, item: Option<Item>)
    ensures Subtotal(d1 + d2, item) == Subtotal(d1, item) + Subtotal(d2, item)
    ensures Subtotal(1, item) == PriceOrZero(item)
    ensures 0 <= d1 <= d2 && PriceOrZero(item) >= 0.0 ==> Subtotal(d1, item) <= Subtotal(d2, item)
  {
    var p := PriceOrZero(item);
    assert (d1 + d2) as real * p == d1 as real * p + d2 as real * p;
    if 0 <= d1 <= d2 && p >= 0.0 {
      assert d2 as real * p - d1 as real * p == (d2 - d1) as real * p;
      MulNonNegative((d2 - d1) as real, p);
    }
  }

  lemma MulNonNegative(x: real, y: real)
    requires x >= 0.0 && y >= 0.0
    ensures x * y >= 0.0
  {
  }

  /** `handleDateSelection`: a complete range sets the totals and closes the picker. */
  function SelectDates(b: Booking, item: Option<Item>, start: Option<int>, end: Option<int>): (b': Booking)
    ensures b'.start == start && b'.end == end && b'.favorited == b.favorited
    ensures start.Some? && end.Some? ==>
              b'.totalDays == RentalDays(start.value, end.value) &&
              b'.totalPrice == Subtotal(RentalDays(start.value, end.value), item) &&
              !b'.pickerOpen
    ensures start == None || end == None ==>
              b'.totalDays == b.totalDays && b'.totalPrice == b.totalPrice && b'.pickerOpen == b.pickerOpen
  {
    var b1 := b.(start := start, end := end);
    if start.Some? && end.Some? then
      var d := RentalDays(start.value, end.value);
      b1.(totalDays := d, totalPrice := Subtotal(d, item), pickerOpen := false)
    else b1
  }

  /** The dialog's start-date input: only the start changes. */
  function PickStart(b: Booking, date: Option<int>): (b': Booking)
    ensures b' == b.(start := date)
  {
    b.(start := date)
  }

  /** The dialog's end-date input: the end changes and, with a start already chosen, the totals follow. */
  function PickEnd(b: Booking, it: Item, date: Option<int>): (b': Booking)
    ensures b'.end == date && b'.start == b.start && b'.pickerOpen == b.pickerOpen
    ensures b.start.Some? && date.Some? ==>
              b'.totalDays == RentalDays(b.start.value, date.value) &&
              b'.totalPrice == b'.totalDays as real * it.price
    ensures b.start == None || date == None ==> b'.totalDays == b.totalDays && b'.totalPrice == b.totalPrice
  {
    var b1 := b.(end := date);
    if b.start.Some? && date.Some? then
      var d := RentalDays(b.start.value, date.value);
      b1.(totalDays := d, totalPrice := d as real * it.price)
    else b1
  }

  /** The dialog's Apply button: closes iff both dates are set, otherwise asks for them. */
  function ApplyDates(b: Booking): (r: (Booking, Option<Toast>))
    ensures !r.0.pickerOpen <==> (b.start.Some? && b.end.Some?) || !b.pickerOpen
    ensures r.1.Some? <==> b.start == None || b.end == None
    ensures r.1.Some? ==> r.1.value == DatesRequired && r.0 == b
    ensures r.0.(pickerOpen := b.pickerOpen) == b
  {
    if b.start.Some? && b.end.Some? then (b.(pickerOpen := false), None) else (b, Some(DatesRequired))
  }

  /** Entering both dates in the dialog yields the same totals as a complete selection. */
  lemma DialogMatchesSelection(b: Booking, it: Item, s: int, e: int)
    ensures var d := PickEnd(PickStart(b, Some(s)), it, Some(e));
            var sel := SelectDates(b, Some(it), Some(s), Some(e));
            d.totalDays == sel.totalDays && d.totalPrice == sel.totalPrice
  {
  }

  // ---------------------------------------------------------------- login gates

  /** Where the Book button leads. */
  datatype BookResult =
    | ToLogin(toast: Toast, path: string, redirectTo: string)
    | OpenPicker
    | Booked(start: int, end: int, path: string)

  /** `handleBookNow`. */
  function BookNow(b: Booking, loggedIn: bool, id: string): (r: (Booking, BookResult))
    ensures !loggedIn ==> r.0 == b && r.1 == ToLogin(AuthToBook, "/login", "/items/" + id)
    ensures loggedIn && (b.start == None || b.end == None) ==> r.1 == OpenPicker && r.0 == b.(pickerOpen := true)
    ensures loggedIn && b.start.Some? && b.end.Some? ==>
              r.0 == b && r.1 == Booked(b.start.value, b.end.value, ConfirmationPath)
    ensures r.1.Booked? ==> loggedIn && b.start.Some? && b.end.Some?
  {
    if !loggedIn then (b, ToLogin(AuthToBook, "/login", "/items/" + id))
    else if b.start == None || b.end == None then (b.(pickerOpen := true), OpenPicker)
    else (b, Booked(b.start.value, b.end.value, ConfirmationPath))
  }

  /** `handleFavoriteClick`: toggles only when logged in; the toast reflects the new state. */
  function FavoriteClick(b: Booking, loggedIn: bool): (r: (Booking, Toast))
    ensures !loggedIn ==> r.0 == b && r.1 == AuthToFavorite
    ensures loggedIn ==> r.0 == b.(favorited := !b.favorited)
    ensures loggedIn ==> (r.1 == Added <==> r.0.favorited)
    ensures loggedIn ==> (r.1 == Removed <==> !r.0.favorited)
  {
    if !loggedIn then (b, AuthToFavorite)
    else (b.(favorited := !b.favorited), if b.favorited then Removed else Added)
  }

  /** Two logged-in favourite clicks restore the flag. */
  lemma FavoriteTwice(b: Booking)
    ensures FavoriteClick(FavoriteClick(b, true).0, true).0 == b
  {
  }

  /** The "Write a Review" button: a login prompt, else a placeholder toast. */
  function ReviewClick(loggedIn: bool): (t: Toast)
    ensures t == AuthToReview <==> !loggedIn
    ensures loggedIn ==> t == ComingSoon
  {
    if !loggedIn then AuthToReview else ComingSoon
  }

  /**
   The page's three login gates agree: reviewing, saving and booking each
   ask for authentication exactly when the user is logged out, and a
   logged-out click changes no booking state.
   */
  lemma LoginGatesAgree(b: Booking, loggedIn: bool, id: string)
    ensures ReviewClick(loggedIn) == AuthToReview <==> !loggedIn
    ensures FavoriteClick(b, loggedIn).1 == AuthToFavorite <==> !loggedIn
    ensures BookNow(b, loggedIn, id).1.ToLogin? <==> !loggedIn
    ensures !loggedIn ==> FavoriteClick(b, loggedIn).0 == b && BookNow(b, loggedIn, id).0 == b
    ensures !loggedIn ==> ReviewClick(loggedIn).title == FavoriteClick(b, loggedIn).1.title == BookNow(b, loggedIn, id).1.toast.title
  {
  }

  /** After Apply has accepted the dates, a logged-in Book books them; while a date is missing it reopens the picker. */
  lemma ApplyThenBook(b: Booking, id: string)
    ensures ApplyDates(b).1 == None ==>
              BookNow(ApplyDates(b).0, true, id).1 == Booked(b.start.value, b.end.value, ConfirmationPath)
    ensures ApplyDates(b).1.Some? ==> BookNow(ApplyDates(b).0, true, id).1 == OpenPicker
  {
  }

  /**
   The whole booking path of a logged-in visit: Book opens the picker, the
   two dates are entered, Apply closes the dialog, and Book then books that
   range, with the totals of the range.
   */
  lemma BookingFlow(it: Item, s: int, e: int)
    ensures var b1 := BookNow(InitialBooking, true, it.id).0;
            var b2 := PickEnd(PickStart(b1, Some(s)), it, Some(e));
            var (b3, t) := ApplyDates(b2);
            b1.pickerOpen && t == None && !b3.pickerOpen &&
            b3.totalDays == RentalDays(s, e) && b3.totalPrice == Subtotal(RentalDays(s, e), Some(it)) &&
            BookNow(b3, true, it.id).1 == Booked(s, e, ConfirmationPath)
  {
  }

  /** Booking from the start of a logged-in visit: the first press opens the picker, never books. */
  lemma FirstBookOpensPicker(id: string)
    ensures BookNow(InitialBooking, true, id).1 == OpenPicker
    ensures BookNow(InitialBooking, true, id).0.pickerOpen
  {
  }
}
