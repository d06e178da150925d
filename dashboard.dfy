/**
 * The dashboard's role gates. Each reads `useSession()` — whether the session is still
 * loading, and the session if there is one — and produces one view. A Next.js `redirect`
 * throws and ends rendering, so a redirect is a terminal outcome.
 */
module Dashboard {
  import opened Wrappers

  /** The part of a session the gates look at: the user's role, which may be unset. */
  datatype SessionData = SessionData(role: Option<string>)

  /** What a gate renders. */
  datatype View = Spinner | Redirect(path: string) | RenderChildren | RenderNothing

  const SignIn: string := "/sign-in"
  const AdminHome: string := "/dashboard/admin"
  const UserHome: string := "/dashboard/user"

  /** The session exists and its role is exactly `r`. */
  predicate HasRole(session: Option<SessionData>, r: string)
  {
    session.Some? && session.value.role == Some(r)
  }

  /** DashboardPage: spinner while loading, then sign-in, admin area, user area, or nothing. */
  function DashboardPage(isPending: bool, session: Option<SessionData>): (v: View)
    ensures v == Spinner <==> isPending
    ensures v == Redirect(SignIn) <==> !isPending && session.None?
    ensures v == Redirect(AdminHome) <==> !isPending && HasRole(session, "admin")
    ensures v == Redirect(UserHome) <==> !isPending && HasRole(session, "user")
    ensures v == RenderNothing <==>
      !isPending && session.Some? && !HasRole(session, "admin") && !HasRole(session, "user")
    ensures v != RenderChildren
  {
    if isPending then Spinner
    else if session.None? then Redirect(SignIn)
    else if session.value.role == Some("admin") then Redirect(AdminHome)
    else if session.value.role == Some("user") then Redirect(UserHome)
    else RenderNothing
  }

  /** DashboardLayout, the layout of the admin area: spinner while loading, sign-in unless the role is `admin`, else the children. */
  function DashboardLayout(isPending: bool, session: Option<SessionData>): (v: View)
    ensures v == Spinner <==> isPending
    ensures v == RenderChildren <==> !isPending && HasRole(session, "admin")
    ensures v == Redirect(SignIn) <==> !isPending && !HasRole(session, "admin")
    ensures v.Spinner? || v.RenderChildren? || v == Redirect(SignIn)
  {
    if isPending then Spinner
    // `session?.user.role !== 'admin'`: no session reads as an undefined role
    else if !HasRole(session, "admin") then Redirect(SignIn)
    else RenderChildren
  }

  /** The two gates agree: the page sends a settled session to the admin area exactly when the layout admits it. */
  lemma AdminRedirectIsAdmitted(session: Option<SessionData>)
    ensures DashboardPage(false, session) == Redirect(AdminHome) <==> DashboardLayout(false, session) == RenderChildren
  {
  }

  /** A session the page sends anywhere but the admin area is turned away by the admin layout. */
  lemma OthersAreTurnedAway(session: Option<SessionData>)
    requires DashboardPage(false, session) != Redirect(AdminHome)
    ensures DashboardLayout(false, session) == Redirect(SignIn)
  {
  }

  /** While loading, neither gate looks at the session: any two sessions give the same view. */
  lemma PendingIgnoresSession(s1: Option<SessionData>, s2: Option<SessionData>)
    ensures DashboardPage(true, s1) == DashboardPage(true, s2) == Spinner
    ensures DashboardLayout(true, s1) == DashboardLayout(true, s2) == Spinner
  {
  }
}
