/** The application shell: which view a user sees, the tab a sign-in
    redirects to, the navigation and tab bar, and the role label and badge
    in the header. Tabs are named by their string values. */
module AppShell {
  import opened Wrappers
  import Text
  import AuthProvider

  type User = AuthProvider.User

  /** The fixed doctor accounts open the doctor portal. */
  predicate IsDoctorPortalUser(user: Option<User>) {
    user.Some? && (user.value.id == AuthProvider.AnandaId || user.value.id == AuthProvider.PriyaId)
  }

  /** The tab a signed-in user is sent to; without a user the tab stays. */
  function Redirect(user: Option<User>, tab: string): (r: string)
    ensures user.None? ==> r == tab
    ensures user.Some? && user.value.role == AuthProvider.Admin ==> r == "admin"
    ensures user.Some? && user.value.role == AuthProvider.Patient ==> r == "dashboard"
    ensures user.Some? && user.value.role == AuthProvider.Doctor ==>
              r == (if IsDoctorPortalUser(user) then "drportal" else "doctor")
  {
    if user.None? then tab
    else match user.value.role
      case Admin => "admin"
      case Doctor => if IsDoctorPortalUser(user) then "drportal" else "doctor"
      case Patient => "dashboard"
  }

  /** The main area's parts, in page order. */
  datatype Section = AdminView | PortalView | DoctorView | PublicTabs

  predicate IsRole(user: Option<User>, role: AuthProvider.Role) {
    user.Some? && user.value.role == role
  }

  /** The parts the main area renders for a user and a tab. */
  function Sections(user: Option<User>, tab: string): (r: seq<Section>)
    ensures AdminView in r <==> IsRole(user, AuthProvider.Admin) && tab == "admin"
    ensures PortalView in r <==> IsDoctorPortalUser(user) && tab == "drportal"
    ensures DoctorView in r <==> IsRole(user, AuthProvider.Doctor) && !IsDoctorPortalUser(user) && tab == "doctor"
    ensures PublicTabs in r <==> user.None? || IsRole(user, AuthProvider.Patient)
    ensures |r| <= 4
  {
    (if IsRole(user, AuthProvider.Admin) && tab == "admin" then [AdminView] else [])
    + (if IsDoctorPortalUser(user) && tab == "drportal" then [PortalView] else [])
    + (if IsRole(user, AuthProvider.Doctor) && !IsDoctorPortalUser(user) && tab == "doctor" then [DoctorView] else [])
    + (if user.None? || IsRole(user, AuthProvider.Patient) then [PublicTabs] else [])
  }

  /** After the redirect a signed-in user sees exactly one view, the one
      for the role (the portal for the fixed doctor accounts). */
  lemma OneViewAfterRedirect(u: User, tab: string)
    ensures var r := Sections(Some(u), Redirect(Some(u), tab));
            |r| == 1
            && r[0] == (match u.role
                        case Admin => AdminView
                        case Patient => PublicTabs
                        case Doctor => if IsDoctorPortalUser(Some(u)) then PortalView else DoctorView)
  {
  }

  /** Signed out, only the public tabs show, whatever the tab. */
  lemma SignedOutSeesPublicTabs(tab: string)
    ensures Sections(None, tab) == [PublicTabs]
  {
  }

  /** A doctor whose email names Ananda or Priya lands on the portal. */
  lemma NamedDoctorLandsOnPortal(a: AuthProvider.Auth, email: string, p: AuthProvider.ProviderUser, tab: string)
    requires AuthProvider.NamesAnanda(email) || AuthProvider.NamesPriya(email)
    ensures var user := AuthProvider.SignIn(a, email, AuthProvider.Doctor, AuthProvider.Returned(p)).0.user;
            Redirect(user, tab) == "drportal" && Sections(user, Redirect(user, tab)) == [PortalView]
  {
    AuthProvider.NamedDoctorAccount(a, email, "", p);
    PortalDoctorLands(AuthProvider.SignIn(a, email, AuthProvider.Doctor, AuthProvider.Returned(p)).0.user, tab);
  }

  lemma PortalDoctorLands(user: Option<User>, tab: string)
    requires IsDoctorPortalUser(user) && user.value.role == AuthProvider.Doctor
    ensures Redirect(user, tab) == "drportal" && Sections(user, Redirect(user, tab)) == [PortalView]
  {
  }

  /** Any other doctor, unless the provider itself issued a portal id, lands
      on the doctor dashboard. */
  lemma OtherDoctorLandsOnDashboard(a: AuthProvider.Auth, email: string, p: AuthProvider.ProviderUser, tab: string)
    requires !(AuthProvider.NamesAnanda(email) || AuthProvider.NamesPriya(email))
    requires p.id != AuthProvider.AnandaId && p.id != AuthProvider.PriyaId
    ensures var user := AuthProvider.SignIn(a, email, AuthProvider.Doctor, AuthProvider.Returned(p)).0.user;
            Redirect(user, tab) == "doctor" && Sections(user, Redirect(user, tab)) == [DoctorView]
  {
  }

  /** The public tab bar: the dashboard tab only for a signed-in user. */
  function PublicTabList(user: Option<User>): (r: seq<string>)
    ensures "dashboard" in r <==> user.Some?
    ensures |r| >= 4 && r[..2] == ["home", "doctors"] && r[|r| - 2..] == ["children", "vibrational"]
  {
    ["home", "doctors"] + (if user.Some? then ["dashboard"] else []) + ["children", "vibrational"]
  }

  /** The grid's column count. */
  function Columns(user: Option<User>): (n: nat)
    ensures n == |PublicTabList(user)|
  {
    if user.Some? then 5 else 4
  }

  /** The header's navigation buttons as (label, target tab). */
  function NavButtons(user: Option<User>): (r: seq<(string, string)>)
    ensures !(user.None? || IsRole(user, AuthProvider.Patient) || IsDoctorPortalUser(user)) ==> r == []
    ensures user.None? ==> r == [("Home", "home"), ("Find Doctors", "doctors")]
    ensures IsDoctorPortalUser(user) && !IsRole(user, AuthProvider.Patient) ==> r == [("Dr. Portal", "drportal")]
    ensures IsRole(user, AuthProvider.Patient) ==>
              r == [("Home", "home"), ("Find Doctors", "doctors"),
                    if IsDoctorPortalUser(user) then ("Dr. Portal", "drportal") else ("Dashboard", "dashboard")]
  {
    if !(user.None? || IsRole(user, AuthProvider.Patient) || IsDoctorPortalUser(user)) then []
    else
      (if user.None? || IsRole(user, AuthProvider.Patient) then [("Home", "home"), ("Find Doctors", "doctors")] else [])
      + (if user.Some? then
           [if IsDoctorPortalUser(user) then ("Dr. Portal", "drportal") else ("Dashboard", "dashboard")]
         else [])
  }

  /** Every navigation target is a tab the user can see. */
  lemma NavTargetsAreShown(user: Option<User>, k: nat)
    requires k < |NavButtons(user)|
    ensures var target := NavButtons(user)[k].1;
            target in PublicTabList(user) || (target == "drportal" && IsDoctorPortalUser(user))
  {
  }

  function RoleName(role: AuthProvider.Role): string {
    match role
    case Patient => "patient"
    case Doctor => "doctor"
    case Admin => "admin"
  }

  /** The role as shown under the name: first letter capitalised. */
  function RoleLabel(role: AuthProvider.Role): (r: string)
    ensures |r| == |RoleName(role)| && r[1..] == RoleName(role)[1..]
    ensures 'A' <= r[0] <= 'Z' && Text.LowerChar(r[0]) == RoleName(role)[0]
    ensures Text.Lower(r) == RoleName(role)
  {
    var r := Text.Capitalize(RoleName(role));
    assert forall i :: 1 <= i < |r| ==> 'a' <= r[i] <= 'z';
    r
  }

  /** Different roles show different labels. */
  lemma RoleLabelInjective(a: AuthProvider.Role, b: AuthProvider.Role)
    ensures RoleLabel(a) == RoleLabel(b) <==> a == b
  {
    if RoleLabel(a) == RoleLabel(b) {
      assert RoleName(a) == Text.Lower(RoleLabel(a)) == Text.Lower(RoleLabel(b)) == RoleName(b);
    }
  }

  lemma RoleLabels()
    ensures RoleLabel(AuthProvider.Patient) == "Patient"
    ensures RoleLabel(AuthProvider.Doctor) == "Doctor"
    ensures RoleLabel(AuthProvider.Admin) == "Admin"
  {
  }

  /** The avatar badge's colour; teal when there is no role. */
  function BadgeColor(user: Option<User>): (r: string)
    ensures user.None? || user.value.role == AuthProvider.Patient ==> r == "bg-teal-600"
    ensures user.Some? && user.value.role == AuthProvider.Doctor ==> r == "bg-blue-600"
    ensures user.Some? && user.value.role == AuthProvider.Admin ==> r == "bg-purple-600"
  {
    if user.None? then "bg-teal-600"
    else match user.value.role
      case Patient => "bg-teal-600"
      case Doctor => "bg-blue-600"
      case Admin => "bg-purple-600"
  }

  /** The three roles get three different badges. */
  lemma BadgesDistinct(p: User, d: User, a: User)
    requires p.role == AuthProvider.Patient && d.role == AuthProvider.Doctor && a.role == AuthProvider.Admin
    ensures BadgeColor(Some(p)) != BadgeColor(Some(d))
    ensures BadgeColor(Some(d)) != BadgeColor(Some(a))
    ensures BadgeColor(Some(a)) != BadgeColor(Some(p))
  {
  }

  /** The shell's state: the provider's state and the active tab. */
  datatype Shell = Shell(auth: AuthProvider.Auth, tab: string)

  /** `handleSignOut`: the provider signs out and the tab returns home. */
  function HandleSignOut(s: Shell, providerFails: bool): (r: Shell)
    ensures r.tab == "home" && r.auth.stored.None?
    ensures !providerFails ==> r.auth.user.None?
  {
    Shell(AuthProvider.SignOut(s.auth, providerFails), "home")
  }

  /** After signing out, the public landing page shows with four tabs. */
  lemma SignOutShowsLanding(s: Shell)
    ensures var r := HandleSignOut(s, false);
            Sections(r.auth.user, Redirect(r.auth.user, r.tab)) == [PublicTabs]
            && Redirect(r.auth.user, r.tab) == "home" && Columns(r.auth.user) == 4
  {
  }
}
