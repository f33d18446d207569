/** The entities of the marketplace as the client sees them: users, guides,
    tour listings, bookings and wishlist entries, with the two closed tag
    sets for roles and booking states. */
module Types {
  import opened Common

  /** The closed set of roles a user can hold. */
  datatype UserRole = TOURIST | GUIDE | ADMIN

  /** The wire spelling of a role. */
  function RoleName(r: UserRole): string
  {
    match r
    case TOURIST => "TOURIST"
    case GUIDE => "GUIDE"
    case ADMIN => "ADMIN"
  }

  /** Reads a wire role tag; exact, case-sensitive match. */
  function ParseRole(s: string): (r: Option<UserRole>)
    ensures r.Some? ==> RoleName(r.value) == s
  {
    if s == "TOURIST" then Some(TOURIST)
    else if s == "GUIDE" then Some(GUIDE)
    else if s == "ADMIN" then Some(ADMIN)
    else None
  }

  /** The three role names are exactly the strings that parse, each to its
      own role. */
  lemma RoleNamesParse(r: UserRole, s: string)
    ensures ParseRole(RoleName(r)) == Some(r)
    ensures ParseRole(s).Some? <==> s in {"TOURIST", "GUIDE", "ADMIN"}
  {
  }

  /** The closed set of booking states. */
  datatype BookingStatus = PENDING | CONFIRMED | COMPLETED | CANCELLED

  function StatusName(st: BookingStatus): string
  {
    match st
    case PENDING => "PENDING"
    case CONFIRMED => "CONFIRMED"
    case COMPLETED => "COMPLETED"
    case CANCELLED => "CANCELLED"
  }

  function ParseStatus(s: string): (r: Option<BookingStatus>)
    ensures r.Some? ==> StatusName(r.value) == s
  {
    if s == "PENDING" then Some(PENDING)
    else if s == "CONFIRMED" then Some(CONFIRMED)
    else if s == "COMPLETED" then Some(COMPLETED)
    else if s == "CANCELLED" then Some(CANCELLED)
    else None
  }

  /** The four status names are exactly the strings that parse. */
  lemma StatusNamesParse(st: BookingStatus, s: string)
    ensures ParseStatus(StatusName(st)) == Some(st)
    ensures ParseStatus(s).Some? <==> s in {"PENDING", "CONFIRMED", "COMPLETED", "CANCELLED"}
  {
  }

  /** A user as the backend returns it. `role` is the raw tag: the declared
      type is `UserRole`, but nothing on the client checks it, so any string
      or no value at all can arrive. Numbers are whole numbers here. */
  datatype User = User(
    id: string,
    name: Option<string>,
    email: Option<string>,
    image: Option<string>,
    profilePic: Option<string>,
    bio: Option<string>,
    role: Option<string>,
    languages: seq<string>,
    expertise: Option<seq<string>>,
    dailyRate: Option<int>,
    travelPreferences: Option<string>,
    createdAt: string,
    updatedAt: string)

  /** A guide: a user whose role is GUIDE and whose expertise and daily rate
      are mandatory, plus the statistics the API computes. */
  datatype Guide = Guide(
    id: string,
    name: Option<string>,
    email: Option<string>,
    image: Option<string>,
    profilePic: Option<string>,
    bio: Option<string>,
    languages: seq<string>,
    expertise: seq<string>,
    dailyRate: int,
    travelPreferences: Option<string>,
    rating: Option<int>,
    totalReviews: Option<nat>,
    totalTours: Option<nat>,
    verified: Option<bool>,
    location: Option<string>,
    createdAt: string,
    updatedAt: string)

  /** A guide seen as a user (`Guide extends User`). */
  function GuideAsUser(g: Guide): (u: User)
    ensures u.role == Some(RoleName(GUIDE))
    ensures u.id == g.id && u.expertise == Some(g.expertise) && u.dailyRate == Some(g.dailyRate)
    ensures u.name == g.name && u.email == g.email && u.image == g.image && u.profilePic == g.profilePic
    ensures u.bio == g.bio && u.languages == g.languages && u.travelPreferences == g.travelPreferences
    ensures u.createdAt == g.createdAt && u.updatedAt == g.updatedAt
  {
    User(g.id, g.name, g.email, g.image, g.profilePic, g.bio, Some("GUIDE"),
         g.languages, Some(g.expertise), Some(g.dailyRate), g.travelPreferences, g.createdAt, g.updatedAt)
  }

  /** A tour listing. */
  datatype Tour = Tour(
    id: string,
    guideId: string,
    guide: Option<Guide>,
    title: string,
    description: string,
    itinerary: seq<string>,
    tourFee: int,
    durationDays: int,
    meetingPoint: Option<string>,
    maxGroupSize: int,
    city: string,
    country: Option<string>,
    language: string,
    category: string,
    images: seq<string>,
    location: Option<string>,
    featured: Option<bool>,
    active: Option<bool>)

  /** A booking request of a tourist for a listing, with the status from
      the closed set; the related listing, tourist and guide may come
      embedded. Numbers are whole numbers here. */
  datatype Booking = Booking(
    id: string,
    listingId: string,
    listing: Option<Tour>,
    touristId: string,
    tourist: Option<User>,
    guideId: string,
    guide: Option<Guide>,
    requestedDate: string,
    status: BookingStatus,
    totalPrice: int,
    groupSize: Option<int>,
    createdAt: string,
    updatedAt: Option<string>)

  /** A tour a tourist saved for later. */
  datatype WishlistItem = WishlistItem(id: string, tourId: string, tour: Tour, addedAt: string)
}
