/** The admin dashboard: platform statistics, the three search filters,
    the "recent" excerpts and the per-booking actions. */
module AdminDashboard {
  import opened Common
  import opened Seqs
  import opened Text
  import opened MockData

  function Price(b: MockBooking): int { b.totalPrice }

  predicate IsCompleted(b: MockBooking) { b.status == "completed" }

  predicate IsPending(b: MockBooking) { b.status == "pending" }

  predicate IsActiveTour(t: MockTour) { t.active }

  /** `totalRevenue`: `totalPrice` summed over bookings whose status is
      'completed'. */
  function TotalRevenue(bookings: seq<MockBooking>): int
  {
    SumOf(Filter(bookings, IsCompleted), Price)
  }

  /** Revenue counts the price of every 'completed' booking and of no other;
      with non-negative prices it is between 0 and the sum of all prices. */
  lemma {:induction false} RevenueIsCompletedSum(bookings: seq<MockBooking>)
    ensures TotalRevenue(bookings) == SumWhere(bookings, IsCompleted, Price)
    ensures (forall i :: 0 <= i < |bookings| ==> bookings[i].totalPrice >= 0) ==>
      0 <= TotalRevenue(bookings) <= SumOf(bookings, Price)
  {
    SumOfFilter(bookings, IsCompleted, Price);
    if forall i :: 0 <= i < |bookings| ==> bookings[i].totalPrice >= 0 {
      SumWhereBounds(bookings, IsCompleted, Price);
    }
  }

  datatype AdminStats = AdminStats(
    totalUsers: nat,
    totalGuides: nat,
    totalTourists: nat,
    totalTours: nat,
    activeTours: nat,
    totalBookings: nat,
    pendingBookings: nat,
    totalRevenue: int)

  /** The statistics tiles; guides and tourists are separate lists of the
      demonstration data, so only their lengths enter. */
  function Stats(users: seq<MockUser>, guides: nat, tourists: nat,
                 tours: seq<MockTour>, bookings: seq<MockBooking>): (r: AdminStats)
    ensures r.totalUsers == |users| && r.totalTours == |tours| && r.totalBookings == |bookings|
    ensures r.totalGuides == guides && r.totalTourists == tourists
    ensures r.activeTours <= r.totalTours
    ensures r.pendingBookings <= r.totalBookings
    ensures r.activeTours == |Filter(tours, IsActiveTour)|
    ensures r.pendingBookings == |Filter(bookings, IsPending)|
    ensures r.totalRevenue == TotalRevenue(bookings)
  {
    AdminStats(|users|, guides, tourists, |tours|, |Filter(tours, IsActiveTour)|,
               |bookings|, |Filter(bookings, IsPending)|, TotalRevenue(bookings))
  }

  /** Pending bookings and completed ones are distinct, so together they
      never outnumber the bookings. */
  lemma {:induction false} PendingAndCompletedBounded(bookings: seq<MockBooking>)
    ensures |Filter(bookings, IsPending)| + |Filter(bookings, IsCompleted)| <= |bookings|
  {
    var notPending := (b: MockBooking) => !IsPending(b);
    FilterComplement(bookings, IsPending, notPending);
    FilterWeaker(bookings, IsCompleted, notPending);
  }

  /** A user matches when the query occurs in the name or the e-mail
      address, ignoring case. */
  predicate UserMatches(u: MockUser, query: string)
  {
    MatchesIgnoringCase(u.name, query) || MatchesIgnoringCase(u.email, query)
  }

  /** A tour matches on its title or its location. */
  predicate TourMatches(t: MockTour, query: string)
  {
    MatchesIgnoringCase(t.title, query) || MatchesIgnoringCase(t.location, query)
  }

  /** A booking matches on its tour's title or its tourist's name; with
      neither attached, the optional chains give `undefined` and the
      booking never matches. */
  predicate BookingMatches(b: MockBooking, query: string)
  {
    || (b.tour.Some? && MatchesIgnoringCase(b.tour.value.title, query))
    || (b.tourist.Some? && MatchesIgnoringCase(b.tourist.value.name, query))
  }

  /** `filteredUsers`. */
  function FilteredUsers(users: seq<MockUser>, query: string): (r: seq<MockUser>)
    ensures IsSubsequence(r, users)
    ensures forall i :: 0 <= i < |r| ==> UserMatches(r[i], query)
    ensures forall i :: 0 <= i < |users| && UserMatches(users[i], query) ==> users[i] in r
    ensures forall u :: multiset(r)[u] == if UserMatches(u, query) then multiset(users)[u] else 0
  {
    Filter(users, (u: MockUser) => UserMatches(u, query))
  }

  /** `filteredTours`. */
  function FilteredTours(tours: seq<MockTour>, query: string): (r: seq<MockTour>)
    ensures IsSubsequence(r, tours)
    ensures forall i :: 0 <= i < |r| ==> TourMatches(r[i], query)
    ensures forall i :: 0 <= i < |tours| && TourMatches(tours[i], query) ==> tours[i] in r
    ensures forall t :: multiset(r)[t] == if TourMatches(t, query) then multiset(tours)[t] else 0
  {
    Filter(tours, (t: MockTour) => TourMatches(t, query))
  }

  /** `filteredBookings`. */
  function FilteredBookings(bookings: seq<MockBooking>, query: string): (r: seq<MockBooking>)
    ensures IsSubsequence(r, bookings)
    ensures forall i :: 0 <= i < |r| ==> BookingMatches(r[i], query)
    ensures forall i :: 0 <= i < |bookings| && BookingMatches(bookings[i], query) ==> bookings[i] in r
    ensures forall b :: multiset(r)[b] == if BookingMatches(b, query) then multiset(bookings)[b] else 0
  {
    Filter(bookings, (b: MockBooking) => BookingMatches(b, query))
  }

  /** An empty search box keeps every user and every tour, but only the
      bookings that have a tour or a tourist attached. */
  lemma EmptySearch(users: seq<MockUser>, tours: seq<MockTour>, bookings: seq<MockBooking>)
    ensures FilteredUsers(users, "") == users
    ensures FilteredTours(tours, "") == tours
    ensures forall i :: 0 <= i < |bookings| ==>
      (bookings[i] in FilteredBookings(bookings, "") <==> bookings[i].tour.Some? || bookings[i].tourist.Some?)
  {
    forall u: MockUser { EmptyQueryMatches(u.name); }
    forall t: MockTour { EmptyQueryMatches(t.title); }
    forall b: MockBooking | b.tour.Some? { EmptyQueryMatches(b.tour.value.title); }
    forall b: MockBooking | b.tourist.Some? { EmptyQueryMatches(b.tourist.value.name); }
    FilterKeepsAll(users, (u: MockUser) => UserMatches(u, ""));
    FilterKeepsAll(tours, (t: MockTour) => TourMatches(t, ""));
  }

  /** The search ignores the case of what is typed. */
  lemma SearchIgnoresQueryCase(users: seq<MockUser>, tours: seq<MockTour>, bookings: seq<MockBooking>, query: string)
    ensures FilteredUsers(users, ToUpper(query)) == FilteredUsers(users, query)
    ensures FilteredTours(tours, ToUpper(query)) == FilteredTours(tours, query)
    ensures FilteredBookings(bookings, ToUpper(query)) == FilteredBookings(bookings, query)
  {
    LowerForgetsCase(query);
    FilterSame(users, (u: MockUser) => UserMatches(u, ToUpper(query)), (u: MockUser) => UserMatches(u, query));
    FilterSame(tours, (t: MockTour) => TourMatches(t, ToUpper(query)), (t: MockTour) => TourMatches(t, query));
    FilterSame(bookings, (b: MockBooking) => BookingMatches(b, ToUpper(query)), (b: MockBooking) => BookingMatches(b, query));
  }

  /** "Recent Users" and "Recent Bookings": the first five entries. */
  function Recent<T>(s: seq<T>): (r: seq<T>)
    ensures |r| <= 5 && |r| <= |s|
    ensures |r| == 5 || r == s
    ensures forall i :: 0 <= i < |r| ==> r[i] == s[i]
  {
    Take(s, 5)
  }

  /** The actions on a booking in the management list: viewing always,
      cancelling only while the status is 'pending'. */
  function BookingActions(b: MockBooking): (r: set<CardAction>)
    ensures View in r
    ensures Cancel in r <==> b.status == "pending"
    ensures WriteReview !in r
  {
    if b.status == "pending" then {View, Cancel} else {View}
  }
}
