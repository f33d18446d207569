/** The dashboard page: a login prompt for anonymous visitors, otherwise one
    of three dashboards chosen by the user's role tag. */
module DashboardClient {
  import opened Common
  import opened Types
  import opened AuthContext

  datatype View = LoginPrompt | AdminView | GuideView | TouristView

  /** The page's choice: `ADMIN` and `GUIDE` select their dashboards; the
      `TOURIST` tag, any other tag and a missing tag all fall through to the
      tourist dashboard. */
  function SelectDashboard(s: Session): (v: View)
    ensures v == LoginPrompt <==> !IsAuthenticated(s)
    ensures v == AdminView <==> IsAuthenticated(s) && s.user.value.role == Some("ADMIN")
    ensures v == GuideView <==> IsAuthenticated(s) && s.user.value.role == Some("GUIDE")
    ensures v == TouristView <==>
      IsAuthenticated(s) && s.user.value.role != Some("ADMIN") && s.user.value.role != Some("GUIDE")
  {
    if !IsAuthenticated(s) then LoginPrompt
    else match s.user.value.role
      case Some("ADMIN") => AdminView
      case Some("GUIDE") => GuideView
      case _ => TouristView
  }

  /** The role a raw tag stands for on this page: unknown or missing tags
      count as TOURIST. */
  function EffectiveRole(tag: Option<string>): UserRole
  {
    match tag
    case None => TOURIST
    case Some(s) => ParseRole(s).GetOr(TOURIST)
  }

  /** Reference dispatch over the closed role set, one view per role. */
  function ViewFor(r: UserRole): View
  {
    match r
    case ADMIN => AdminView
    case GUIDE => GuideView
    case TOURIST => TouristView
  }

  /** The string switch agrees with an exhaustive match on the closed role
      set after defaulting, so every input gets exactly one defined view. */
  lemma DispatchIsExhaustive(s: Session)
    ensures IsAuthenticated(s) ==> SelectDashboard(s) == ViewFor(EffectiveRole(s.user.value.role))
    ensures !IsAuthenticated(s) ==> SelectDashboard(s) == LoginPrompt
  {
  }

  /** A user whose tag names a role sees that role's dashboard. */
  lemma NamedRoleSelectsItsView(s: Session, r: UserRole)
    requires IsAuthenticated(s) && s.user.value.role == Some(RoleName(r))
    ensures SelectDashboard(s) == ViewFor(r)
  {
  }
}
