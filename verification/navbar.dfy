/** The navigation bar: the role-dependent links, the active-link test and
    the mobile menu's open flag. Icons and styling are not modelled. */
module Navbar {
  import opened Common
  import opened Types
  import opened AuthContext
  import DashboardClient

  datatype NavLink = NavLink(href: string, caption: string)

  const ExploreLink := NavLink("/explore", "Explore Tours")
  const GuideLink := NavLink("/dashboard", "Dashboard")
  const AdminLink := NavLink("/dashboard", "Admin Dashboard")
  const BookingsLink := NavLink("/bookings", "My Bookings")
  const BecomeGuideLink := NavLink("/become-guide", "Become a Guide")

  /** `isActive(path)`: the current path is exactly `path`. */
  predicate IsActive(pathname: string, path: string)
  {
    pathname == path
  }

  /** `getAuthenticatedLinks()`: nothing without a user, otherwise exactly
      one link chosen by the role tag, with "My Bookings" as the default. */
  function AuthenticatedLinks(user: Option<User>): (links: seq<NavLink>)
    ensures user.None? ==> links == []
    ensures user.Some? ==> |links| == 1
    ensures user.Some? && user.value.role == Some("GUIDE") ==> links == [GuideLink]
    ensures user.Some? && user.value.role == Some("ADMIN") ==> links == [AdminLink]
    ensures user.Some? && user.value.role != Some("GUIDE") && user.value.role != Some("ADMIN") ==>
      links == [BookingsLink]
  {
    if user.None? then []
    else match user.value.role
      case Some("GUIDE") => [GuideLink]
      case Some("ADMIN") => [AdminLink]
      case _ => [BookingsLink]
  }

  /** The desktop link row: "Explore Tours", then the role links when
      signed in, then "Become a Guide" when signed out. */
  function DesktopLinks(s: Session): (links: seq<NavLink>)
    ensures |links| >= 2 && links[0] == ExploreLink
    ensures BecomeGuideLink in links <==> !IsAuthenticated(s)
    ensures !IsAuthenticated(s) ==> links == [ExploreLink, BecomeGuideLink]
    ensures IsAuthenticated(s) ==> links == [ExploreLink] + AuthenticatedLinks(s.user)
  {
    [ExploreLink]
    + (if IsAuthenticated(s) then AuthenticatedLinks(s.user) else [])
    + (if !IsAuthenticated(s) then [BecomeGuideLink] else [])
  }

  /** The role link in the navbar leads where the dashboard page dispatches:
      the admin and guide links go to "/dashboard" for exactly the users the
      page shows those dashboards to, and everyone else is sent to
      "/bookings". */
  lemma LinksAgreeWithDashboard(s: Session)
    requires IsAuthenticated(s)
    ensures DashboardClient.SelectDashboard(s) == DashboardClient.AdminView <==> AuthenticatedLinks(s.user) == [AdminLink]
    ensures DashboardClient.SelectDashboard(s) == DashboardClient.GuideView <==> AuthenticatedLinks(s.user) == [GuideLink]
    ensures DashboardClient.SelectDashboard(s) == DashboardClient.TouristView <==> AuthenticatedLinks(s.user) == [BookingsLink]
  {
  }

  /** The desktop links lead to different pages, so on any page at most
      one of them is highlighted, and each is highlighted on its own page. */
  lemma AtMostOneHighlighted(s: Session, pathname: string)
    ensures var links := DesktopLinks(s);
      && (forall i, j :: 0 <= i < j < |links| && IsActive(pathname, links[i].href) ==>
            !IsActive(pathname, links[j].href))
      && (forall i :: 0 <= i < |links| ==> IsActive(links[i].href, links[i].href))
  {
  }

  /** The events that change the mobile menu's `isOpen` flag. */
  datatype MenuEvent = MenuButton | MobileLinkFollowed | MobileLogout

  /** The menu button flips the flag; following a mobile link or logging
      out from the mobile menu closes it. */
  function NextOpen(isOpen: bool, e: MenuEvent): (r: bool)
    ensures e == MenuButton ==> r == !isOpen
    ensures e != MenuButton ==> !r
  {
    match e
    case MenuButton => !isOpen
    case _ => false
  }

  /** Pressing the menu button twice restores the flag; closing twice is
      the same as closing once. */
  lemma MenuButtonInvolution(isOpen: bool, e: MenuEvent)
    ensures NextOpen(NextOpen(isOpen, MenuButton), MenuButton) == isOpen
    ensures e != MenuButton ==> NextOpen(NextOpen(isOpen, e), e) == NextOpen(isOpen, e)
  {
  }

  /** The mobile "Logout" button: log out, then close the menu. */
  function MobileLogoutPressed(isOpen: bool, s: Session): (r: (bool, Session))
    ensures !r.0
    ensures !IsAuthenticated(r.1) && r.1 == Logout(s)
    ensures DesktopLinks(r.1) == [ExploreLink, BecomeGuideLink]
  {
    (NextOpen(isOpen, MobileLogout), Logout(s))
  }
}
