/** The tourist dashboard: upcoming and past trips, the wishlist, the
    "Cities Visited" tile and the buttons on a booking card. `now` is the
    current time on the same time line as the bookings' dates. */
module TouristDashboard {
  import opened Common
  import opened Seqs
  import opened Types
  import opened MockData

  /** `user?.id || 'tourist1'`. */
  function TouristId(user: Option<User>): (id: string)
    ensures user.Some? && user.value.id != "" ==> id == user.value.id
    ensures user.None? || user.value.id == "" ==> id == "tourist1"
  {
    if user.Some? then TextOr(Some(user.value.id), "tourist1") else "tourist1"
  }

  /** Upcoming: confirmed or pending, dated now or later. */
  predicate IsUpcoming(b: MockBooking, now: int)
  {
    (b.status == "confirmed" || b.status == "pending") && b.date >= now
  }

  /** Past: completed, or dated before now. */
  predicate IsPast(b: MockBooking, now: int)
  {
    b.status == "completed" || b.date < now
  }

  function UpcomingBookings(bookings: seq<MockBooking>, now: int): (r: seq<MockBooking>)
    ensures IsSubsequence(r, bookings)
    ensures forall i :: 0 <= i < |r| ==> IsUpcoming(r[i], now)
    ensures forall i :: 0 <= i < |bookings| && IsUpcoming(bookings[i], now) ==> bookings[i] in r
    ensures forall b :: multiset(r)[b] == if IsUpcoming(b, now) then multiset(bookings)[b] else 0
  {
    Filter(bookings, (b: MockBooking) => IsUpcoming(b, now))
  }

  function PastBookings(bookings: seq<MockBooking>, now: int): (r: seq<MockBooking>)
    ensures IsSubsequence(r, bookings)
    ensures forall i :: 0 <= i < |r| ==> IsPast(r[i], now)
    ensures forall i :: 0 <= i < |bookings| && IsPast(bookings[i], now) ==> bookings[i] in r
    ensures forall b :: multiset(r)[b] == if IsPast(b, now) then multiset(bookings)[b] else 0
  {
    Filter(bookings, (b: MockBooking) => IsPast(b, now))
  }

  /** The two filters read the clock separately, the upcoming one first:
      with readings `nowUp <= nowPast`, an upcoming booking is also listed
      as past exactly when it is dated before the second reading, that is
      inside the window between the two. A cancelled booking dated at or
      after the second reading is in neither list. */
  lemma {:induction false} UpcomingPastOverlap(bookings: seq<MockBooking>, nowUp: int, nowPast: int)
    requires nowUp <= nowPast
    ensures forall i :: 0 <= i < |UpcomingBookings(bookings, nowUp)| ==>
      (UpcomingBookings(bookings, nowUp)[i] in PastBookings(bookings, nowPast) <==>
         nowUp <= UpcomingBookings(bookings, nowUp)[i].date < nowPast)
    ensures forall i :: 0 <= i < |bookings| && bookings[i].status == "cancelled" && bookings[i].date >= nowPast ==>
      bookings[i] !in UpcomingBookings(bookings, nowUp) && bookings[i] !in PastBookings(bookings, nowPast)
  {
    var up := UpcomingBookings(bookings, nowUp);
    var past := PastBookings(bookings, nowPast);
    forall i | 0 <= i < |up|
      ensures up[i] in past <==> nowUp <= up[i].date < nowPast
    {
      UpcomingAlsoPast(bookings, nowUp, nowPast, up[i]);
    }
    forall i | 0 <= i < |bookings| && bookings[i].status == "cancelled" && bookings[i].date >= nowPast
      ensures bookings[i] !in up && bookings[i] !in past
    {
      CancelledInNeither(bookings, nowUp, nowPast, bookings[i]);
    }
  }

  lemma UpcomingAlsoPast(bookings: seq<MockBooking>, nowUp: int, nowPast: int, b: MockBooking)
    requires nowUp <= nowPast
    requires b in UpcomingBookings(bookings, nowUp)
    ensures b in PastBookings(bookings, nowPast) <==> nowUp <= b.date < nowPast
  {
    var up := UpcomingBookings(bookings, nowUp);
    var past := PastBookings(bookings, nowPast);
    assert multiset(up)[b] > 0;
    assert IsUpcoming(b, nowUp);
    assert multiset(past)[b] == if IsPast(b, nowPast) then multiset(bookings)[b] else 0;
  }

  lemma CancelledInNeither(bookings: seq<MockBooking>, nowUp: int, nowPast: int, b: MockBooking)
    requires nowUp <= nowPast
    requires b.status == "cancelled" && b.date >= nowPast
    ensures b !in UpcomingBookings(bookings, nowUp) && b !in PastBookings(bookings, nowPast)
  {
    assert !IsUpcoming(b, nowUp) && !IsPast(b, nowPast);
    var up := UpcomingBookings(bookings, nowUp);
    var past := PastBookings(bookings, nowPast);
    assert multiset(up)[b] == 0;
    assert multiset(past)[b] == 0;
  }

  /** With one reading for both filters no booking is both upcoming and
      past, and the two lists together are no longer than the bookings. */
  lemma {:induction false} UpcomingAndPastDisjoint(bookings: seq<MockBooking>, now: int)
    ensures forall i :: 0 <= i < |UpcomingBookings(bookings, now)| ==>
      UpcomingBookings(bookings, now)[i] !in PastBookings(bookings, now)
    ensures |UpcomingBookings(bookings, now)| + |PastBookings(bookings, now)| <= |bookings|
  {
    UpcomingPastOverlap(bookings, now, now);
    var up := (b: MockBooking) => IsUpcoming(b, now);
    var past := (b: MockBooking) => IsPast(b, now);
    var notUp := (b: MockBooking) => !IsUpcoming(b, now);
    FilterComplement(bookings, up, notUp);
    FilterWeaker(bookings, past, notUp);
  }

  /** `handleRemoveFromWishlist(id)`: drops every entry with that id. */
  function RemoveFromWishlist(items: seq<WishlistItem>, id: string): (r: seq<WishlistItem>)
    ensures IsSubsequence(r, items)
    ensures forall i :: 0 <= i < |r| ==> r[i].id != id
    ensures forall i :: 0 <= i < |items| && items[i].id != id ==> items[i] in r
    ensures forall w :: multiset(r)[w] == if w.id != id then multiset(items)[w] else 0
  {
    Filter(items, (w: WishlistItem) => w.id != id)
  }

  /** The removal shrinks the list by exactly the number of entries carrying
      the id; an id not on the list leaves it unchanged. */
  lemma {:induction false} RemovalCount(items: seq<WishlistItem>, id: string)
    ensures |RemoveFromWishlist(items, id)| + |Filter(items, (w: WishlistItem) => w.id == id)| == |items|
    ensures (forall i :: 0 <= i < |items| ==> items[i].id != id) ==> RemoveFromWishlist(items, id) == items
  {
    FilterComplement(items, (w: WishlistItem) => w.id != id, (w: WishlistItem) => w.id == id);
    if forall i :: 0 <= i < |items| ==> items[i].id != id {
      FilterKeepsAll(items, (w: WishlistItem) => w.id != id);
    }
  }

  /** `b.tour?.location`: absent when the booking has no tour. */
  function LocationOf(b: MockBooking): Option<string>
  {
    if b.tour.Some? then Some(b.tour.value.location) else None
  }

  /** "Cities Visited": the number of distinct `tour?.location` values among
      past bookings, where a missing tour counts as one more value. */
  function CitiesVisited(bookings: seq<MockBooking>, now: int): (n: nat)
    ensures n <= |PastBookings(bookings, now)|
    ensures n == |Image(PastBookings(bookings, now), LocationOf)|
    ensures |PastBookings(bookings, now)| > 0 ==> n >= 1
  {
    var past := PastBookings(bookings, now);
    assert |past| > 0 ==> LocationOf(past[0]) in Image(past, LocationOf);
    |Image(past, LocationOf)|
  }

  /** The buttons of a booking card: "View Tour" always, "Cancel" only when
      the card was asked to show it and the booking is pending, "Write
      Review" only for completed bookings. */
  function CardActions(b: MockBooking, showCancelButton: bool): (r: set<CardAction>)
    ensures View in r
    ensures Cancel in r <==> showCancelButton && b.status == "pending"
    ensures WriteReview in r <==> b.status == "completed"
  {
    {View}
    + (if showCancelButton && b.status == "pending" then {Cancel} else {})
    + (if b.status == "completed" then {WriteReview} else {})
  }

  /** The upcoming tab asks for the cancel button and the past tab does
      not; so past trips are never offered "Cancel", and upcoming trips,
      not being completed, are never offered "Write Review". */
  lemma TabsOfferTheRightButtons(bookings: seq<MockBooking>, now: int)
    ensures forall i :: 0 <= i < |PastBookings(bookings, now)| ==>
      Cancel !in CardActions(PastBookings(bookings, now)[i], false)
    ensures forall i :: 0 <= i < |UpcomingBookings(bookings, now)| ==>
      WriteReview !in CardActions(UpcomingBookings(bookings, now)[i], true)
  {
  }
}
