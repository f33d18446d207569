/** The guide's dashboard: the guarded load of the guide's listings and
    bookings, the status lists and statistics derived from them, and the
    activate/deactivate toggle of one listing. Rows are the backend's JSON
    objects reduced to the fields this component reads; prices are whole
    numbers. */
module GuideDashboard {
  import opened Common
  import opened Seqs
  import opened AuthContext
  import opened Types

  /** A listing row: `id`, `title` and the `isActive` flag the toggle flips. */
  datatype ListingRow = ListingRow(id: string, title: string, isActive: bool)

  /** A booking row: its status string, exactly as the backend sends it,
      and its total price. */
  datatype BookingRow = BookingRow(id: string, status: string, totalPrice: int)

  /** The component's state. */
  datatype GuideState = GuideState(loading: bool, tours: seq<ListingRow>, bookings: seq<BookingRow>)

  /** First render: loading, nothing fetched yet. */
  const Initial := GuideState(true, [], [])

  /** What the two parallel requests produced: an exception anywhere, or
      the two `data` fields (None when a body has none). */
  datatype FetchResult =
    | FetchFailed
    | Fetched(tourData: Option<seq<ListingRow>>, bookingData: Option<seq<BookingRow>>)

  /** The effect fetches only when both the guide's id and the token are truthy. */
  predicate ShouldFetch(guideId: Option<string>, token: Option<string>)
  {
    Truthy(guideId) && Truthy(token)
  }

  /** `data || []`. */
  function OrEmpty<T>(data: Option<seq<T>>): (r: seq<T>)
    ensures data.None? ==> r == []
    ensures data.Some? ==> r == data.value
  {
    data.GetOr([])
  }

  /** The load effect: without both id and token it returns at once and the
      state, `loading` included, stays as it is; otherwise the fetch's
      `finally` clears `loading`, and on success both lists are replaced. */
  function Load(st: GuideState, guideId: Option<string>, token: Option<string>, fetch: FetchResult): (r: GuideState)
    ensures !ShouldFetch(guideId, token) ==> r == st
    ensures ShouldFetch(guideId, token) ==> !r.loading
    ensures ShouldFetch(guideId, token) && fetch.FetchFailed? ==> r.tours == st.tours && r.bookings == st.bookings
    ensures ShouldFetch(guideId, token) && fetch.Fetched? ==>
      r.tours == OrEmpty(fetch.tourData) && r.bookings == OrEmpty(fetch.bookingData)
  {
    if !ShouldFetch(guideId, token) then st
    else match fetch
      case FetchFailed => st.(loading := false)
      case Fetched(t, b) => GuideState(false, OrEmpty(t), OrEmpty(b))
  }

  /** The guide id is `user?.id`. */
  function GuideIdOf(s: Session): Option<string>
  {
    if s.user.Some? then Some(s.user.value.id) else None
  }

  /** Without a signed-in user no request is made, whatever the server would
      answer, and the dashboard stays on "Loading dashboard..." for good. */
  lemma AnonymousStaysLoading(s: Session, fetch: FetchResult)
    requires !IsAuthenticated(s)
    ensures Load(Initial, GuideIdOf(s), s.token, fetch) == Initial
    ensures Load(Initial, GuideIdOf(s), s.token, fetch).loading
  {
  }

  predicate IsCompletedRow(b: BookingRow) { b.status == "COMPLETED" }

  function PriceOf(b: BookingRow): int { b.totalPrice }

  /** The bookings whose status is exactly `status`, in their original order. */
  function WithStatus(bookings: seq<BookingRow>, status: string): (r: seq<BookingRow>)
    ensures IsSubsequence(r, bookings)
    ensures |r| <= |bookings|
    ensures forall i :: 0 <= i < |r| ==> r[i].status == status
    ensures forall i :: 0 <= i < |bookings| && bookings[i].status == status ==> bookings[i] in r
    ensures forall b :: multiset(r)[b] == if b.status == status then multiset(bookings)[b] else 0
  {
    Filter(bookings, (b: BookingRow) => b.status == status)
  }

  /** The three status lists together hold no more than all bookings:
      no booking is counted twice. */
  lemma {:induction false} StatusListsBounded(bookings: seq<BookingRow>)
    ensures |WithStatus(bookings, "PENDING")| + |WithStatus(bookings, "CONFIRMED")|
            + |WithStatus(bookings, "COMPLETED")| <= |bookings|
  {
    if |bookings| > 0 {
      StatusListsBounded(bookings[1..]);
    }
  }

  /** The row the dashboard reads from a typed booking: the same id and
      price, and a status string that is the wire name of its status. */
  function RowOf(b: Booking): (r: BookingRow)
    ensures ParseStatus(r.status) == Some(b.status)
    ensures r.id == b.id && r.totalPrice == b.totalPrice
  {
    StatusNamesParse(b.status, "");
    BookingRow(b.id, StatusName(b.status), b.totalPrice)
  }

  /** The rows of a list of typed bookings, in order. */
  function Rows(bs: seq<Booking>): (r: seq<BookingRow>)
    ensures |r| == |bs|
    ensures forall i :: 0 <= i < |bs| ==> r[i] == RowOf(bs[i])
  {
    seq(|bs|, i requires 0 <= i < |bs| => RowOf(bs[i]))
  }

  /** When every status string is one of the four names, the four status
      lists split the bookings: each booking is in exactly one of them. */
  lemma {:induction false} StatusesPartition(bookings: seq<BookingRow>)
    requires forall i :: 0 <= i < |bookings| ==> ParseStatus(bookings[i].status).Some?
    ensures |WithStatus(bookings, "PENDING")| + |WithStatus(bookings, "CONFIRMED")|
            + |WithStatus(bookings, "COMPLETED")| + |WithStatus(bookings, "CANCELLED")| == |bookings|
  {
    if |bookings| > 0 {
      StatusesPartition(bookings[1..]);
      WithStatusHead(bookings, "PENDING");
      WithStatusHead(bookings, "CONFIRMED");
      WithStatusHead(bookings, "COMPLETED");
      WithStatusHead(bookings, "CANCELLED");
    }
  }

  /** The first booking adds one to its own status list and nothing to any
      other. */
  lemma WithStatusHead(bookings: seq<BookingRow>, status: string)
    requires |bookings| > 0
    ensures |WithStatus(bookings, status)| ==
      (if bookings[0].status == status then 1 else 0) + |WithStatus(bookings[1..], status)|
  {
  }

  /** Bookings of the declared type always split that way: the pending,
      confirmed and completed tabs together with the cancelled bookings
      hold every booking once. */
  lemma TypedBookingsPartition(bs: seq<Booking>)
    ensures var rows := Rows(bs);
      |WithStatus(rows, "PENDING")| + |WithStatus(rows, "CONFIRMED")|
      + |WithStatus(rows, "COMPLETED")| + |WithStatus(rows, "CANCELLED")| == |bs|
  {
    StatusesPartition(Rows(bs));
  }

  /** Total revenue: `totalPrice` summed over the COMPLETED list. */
  function TotalRevenue(bookings: seq<BookingRow>): int
  {
    SumOf(WithStatus(bookings, "COMPLETED"), PriceOf)
  }

  /** Revenue counts every COMPLETED booking's price and nothing else; with
      non-negative prices it lies between 0 and the sum of all prices. */
  lemma {:induction false} RevenueIsCompletedSum(bookings: seq<BookingRow>)
    ensures TotalRevenue(bookings) == SumWhere(bookings, IsCompletedRow, PriceOf)
    ensures (forall i :: 0 <= i < |bookings| ==> bookings[i].totalPrice >= 0) ==>
      0 <= TotalRevenue(bookings) <= SumOf(bookings, PriceOf)
  {
    FilterSame(bookings, (b: BookingRow) => b.status == "COMPLETED", IsCompletedRow);
    SumOfFilter(bookings, IsCompletedRow, PriceOf);
    if forall i :: 0 <= i < |bookings| ==> bookings[i].totalPrice >= 0 {
      SumWhereBounds(bookings, IsCompletedRow, PriceOf);
    }
  }

  /** The guide's rating tile: "0.0" without listings; with listings, the
      mean of their ratings, which is floating point and not modelled. */
  datatype Rating = NoListings | MeanOver(listings: nat)

  /** The integer parts of the statistics tiles. */
  datatype GuideStats = GuideStats(
    totalBookings: nat,
    pendingBookings: nat,
    totalRevenue: int,
    activeTours: nat,
    rating: Rating)

  function Stats(tours: seq<ListingRow>, bookings: seq<BookingRow>): (r: GuideStats)
    ensures r.totalBookings == |bookings|
    ensures r.pendingBookings == |WithStatus(bookings, "PENDING")| <= |bookings|
    ensures r.totalRevenue == TotalRevenue(bookings)
    ensures r.activeTours == |Filter(tours, (t: ListingRow) => t.isActive)| <= |tours|
    ensures r.rating == NoListings <==> |tours| == 0
  {
    GuideStats(|bookings|, |WithStatus(bookings, "PENDING")|, TotalRevenue(bookings),
               |Filter(tours, (t: ListingRow) => t.isActive)|,
               if |tours| == 0 then NoListings else MeanOver(|tours|))
  }

  /** Every listing counts as active exactly when all of them are flagged. */
  lemma AllActiveExactly(tours: seq<ListingRow>)
    ensures Stats(tours, []).activeTours == |tours| <==> forall i :: 0 <= i < |tours| ==> tours[i].isActive
  {
    var active := Filter(tours, (t: ListingRow) => t.isActive);
    if |active| == |tours| {
      SubsequenceOfSameLength(active, tours);
    }
    if forall i :: 0 <= i < |tours| ==> tours[i].isActive {
      FilterKeepsAll(tours, (t: ListingRow) => t.isActive);
    }
  }

  /** The toggle's effect on the listing list: after an ok response, every
      listing with the given id gets `isActive := !currentStatus`, where
      `currentStatus` is the flag the button was rendered with; everything
      else is kept. A non-ok response or an exception keeps the list. */
  function ToggleTour(tours: seq<ListingRow>, tourId: string, currentStatus: bool, ok: bool): (r: seq<ListingRow>)
    ensures |r| == |tours|
    ensures !ok ==> r == tours
    ensures forall i :: 0 <= i < |tours| ==>
      && r[i].id == tours[i].id
      && r[i].title == tours[i].title
      && r[i].isActive == (if ok && tours[i].id == tourId then !currentStatus else tours[i].isActive)
  {
    if !ok then tours
    else
      seq(|tours|, i requires 0 <= i < |tours| =>
        if tours[i].id == tourId then tours[i].(isActive := !currentStatus) else tours[i])
  }

  /** The toast the toggle raises. */
  function ToggleToast(currentStatus: bool, ok: bool): (t: Toast)
    ensures !ok ==> t == ErrorToast("Could not update tour status")
    ensures ok && currentStatus ==> t == SuccessToast("Tour deactivated")
    ensures ok && !currentStatus ==> t == SuccessToast("Tour activated")
  {
    if !ok then ErrorToast("Could not update tour status")
    else SuccessToast(if currentStatus then "Tour deactivated" else "Tour activated")
  }

  /** When the button shows the listing's own flag, as the list renders it,
      an ok toggle negates exactly that listing's flag, and a second ok
      toggle from the new rendering gives back the original list. */
  lemma ToggleTwiceRestores(tours: seq<ListingRow>, k: nat)
    requires k < |tours|
    requires forall i :: 0 <= i < |tours| && tours[i].id == tours[k].id ==> i == k
    ensures var once := ToggleTour(tours, tours[k].id, tours[k].isActive, true);
      && once[k].isActive == !tours[k].isActive
      && (forall i :: 0 <= i < |tours| && i != k ==> once[i] == tours[i])
      && ToggleTour(once, once[k].id, once[k].isActive, true) == tours
  {

  }
}
