/** The authentication provider: the signed-in user (kept in memory and in
    local storage), the doctor accounts recognised by email, the access
    token choice and signing out. The identity provider's answers are
    inputs. */
module AuthProvider {
  import opened Wrappers
  import Text
  import Json

  datatype Role = Patient | Doctor | Admin

  datatype User = User(id: string, email: string, fullName: string, role: Role)

  /** What the identity provider returned: its user id, its (possibly
      absent) email and the `fullName` in the user's metadata. */
  datatype ProviderUser = ProviderUser(id: string, email: Option<string>, metadataName: Option<string>)

  /** The provider's answer to a sign-in or sign-up: an error with its
      message, success without a user, or success with one. */
  datatype Answer = AuthError(message: string) | NoUser | Returned(user: ProviderUser)

  /** The provider's state: the user, the copy in local storage, and the
      loading flag. */
  datatype Auth = Auth(user: Option<User>, stored: Option<User>, loading: bool)

  const AnandaId := "doctor_ananda_id"
  const PriyaId := "doctor_priya_id"
  const AnandaEmail := "dr.ananda@soulcare.com"
  const PriyaEmail := "dr.priya@soulcare.com"

  predicate NamesAnanda(email: string) {
    Text.Contains(Text.Lower(email), "ananda") || email == AnandaEmail
  }

  predicate NamesPriya(email: string) {
    Text.Contains(Text.Lower(email), "priya") || email == PriyaEmail
  }

  /** The fixed doctor account a doctor's email selects, Ananda's first;
      `None` for other roles and other emails. */
  function DoctorAccount(email: string, role: Role): (r: Option<(string, string)>)
    ensures r.Some? <==> role == Doctor && (NamesAnanda(email) || NamesPriya(email))
    ensures r.Some? ==> r.value == (if NamesAnanda(email) then (AnandaId, "Dr. Ananda Sharma")
                                    else (PriyaId, "Dr. Priya Meditation"))
  {
    if role != Doctor then None
    else if NamesAnanda(email) then Some((AnandaId, "Dr. Ananda Sharma"))
    else if NamesPriya(email) then Some((PriyaId, "Dr. Priya Meditation"))
    else None
  }

  /** The user record built from a successful answer; `name` is the name
      used when the email selects no doctor account. */
  function MakeUser(email: string, role: Role, p: ProviderUser, name: string): (u: User)
    ensures u.role == role && u.email == Json.StrOr(p.email, email)
    ensures DoctorAccount(email, role).None? ==> u.id == p.id && u.fullName == name
    ensures DoctorAccount(email, role).Some? ==> (u.id, u.fullName) == DoctorAccount(email, role).value
  {
    var account := DoctorAccount(email, role);
    User(if account.Some? then account.value.0 else p.id, Json.StrOr(p.email, email),
         if account.Some? then account.value.1 else name, role)
  }

  /** `email.split('@')[0]`. */
  function LocalPart(email: string): (r: string)
    ensures Text.StartsWith(email, r) && '@' !in r
    ensures |r| < |email| ==> email[|r|] == '@'
  {
    email[..Text.FirstIndex(email, '@')]
  }

  /** The state after an answer: success with a user signs in and stores
      the user; success without one changes nothing; an error is thrown
      with its message, or `fallback` for an empty one. Loading ends false
      in every case. */
  function Settle(a: Auth, answer: Answer, user: Option<User>, fallback: string): (r: (Auth, Option<string>))
    requires answer.Returned? <==> user.Some?
    ensures !r.0.loading
    ensures answer.AuthError? ==> r == (a.(loading := false), Some(Json.StrOr(Some(answer.message), fallback)))
    ensures answer.NoUser? ==> r == (a.(loading := false), None)
    ensures answer.Returned? ==> r == (Auth(user, user, false), None)
  {
    match answer
    case AuthError(msg) => (a.(loading := false), Some(if msg != "" then msg else fallback))
    case NoUser => (a.(loading := false), None)
    case Returned(_) => (Auth(user, user, false), None)
  }

  /** `signIn`: the name is the metadata's, else the email's local part. */
  function SignIn(a: Auth, email: string, role: Role, answer: Answer): (r: (Auth, Option<string>))
    ensures r.1.Some? <==> answer.AuthError?
    ensures answer.AuthError? && answer.message == "" ==> r.1 == Some("Sign in failed")
    ensures answer.Returned? ==> r.0.user == r.0.stored && r.0.user.Some?
    ensures answer.Returned? ==>
              r.0.user.value == MakeUser(email, role, answer.user,
                                         Json.StrOr(answer.user.metadataName, LocalPart(email)))
    ensures !answer.Returned? ==> r.0 == a.(loading := false)
  {
    var user := if answer.Returned? then
                  Some(MakeUser(email, role, answer.user, Json.StrOr(answer.user.metadataName, LocalPart(email))))
                else None;
    Settle(a, answer, user, "Sign in failed")
  }

  /** `signUp`: the name is the one given in the form. */
  function SignUp(a: Auth, email: string, fullName: string, role: Role, answer: Answer): (r: (Auth, Option<string>))
    ensures r.1.Some? <==> answer.AuthError?
    ensures answer.AuthError? && answer.message == "" ==> r.1 == Some("Sign up failed")
    ensures answer.Returned? ==> r.0.user == r.0.stored && r.0.user.Some?
    ensures answer.Returned? ==> r.0.user.value == MakeUser(email, role, answer.user, fullName)
    ensures !answer.Returned? ==> r.0 == a.(loading := false)
  {
    var user := if answer.Returned? then Some(MakeUser(email, role, answer.user, fullName)) else None;
    Settle(a, answer, user, "Sign up failed")
  }

  /** An email naming both doctors selects Ananda's account. */
  lemma AnandaWins(email: string)
    requires NamesAnanda(email) && NamesPriya(email)
    ensures DoctorAccount(email, Doctor) == Some((AnandaId, "Dr. Ananda Sharma"))
  {
  }

  /** A doctor whose email names Ananda or Priya is signed in (or up) as
      that doctor's fixed account, Ananda's when both are named. */
  lemma NamedDoctorAccount(a: Auth, email: string, fullName: string, p: ProviderUser)
    requires NamesAnanda(email) || NamesPriya(email)
    ensures var u := SignIn(a, email, Doctor, Returned(p)).0.user.value;
            u.role == Doctor && u.id == (if NamesAnanda(email) then AnandaId else PriyaId)
            && u.fullName == (if NamesAnanda(email) then "Dr. Ananda Sharma" else "Dr. Priya Meditation")
    ensures var u := SignUp(a, email, fullName, Doctor, Returned(p)).0.user.value;
            u.role == Doctor && u.id == (if NamesAnanda(email) then AnandaId else PriyaId)
            && u.fullName == (if NamesAnanda(email) then "Dr. Ananda Sharma" else "Dr. Priya Meditation")
  {
    var account := DoctorAccount(email, Doctor);
    assert account.Some?;
  }

  /** Patients, admins and unrecognised doctors keep the provider's id, on
      sign-in and sign-up alike. */
  lemma ProviderIdKept(a: Auth, email: string, fullName: string, role: Role, p: ProviderUser)
    requires role != Doctor || !(NamesAnanda(email) || NamesPriya(email))
    ensures SignIn(a, email, role, Returned(p)).0.user.value.id == p.id
    ensures SignUp(a, email, fullName, role, Returned(p)).0.user.value.id == p.id
  {
  }

  /** Signing in and signing up give a doctor the same id. */
  lemma SameIdEitherWay(a: Auth, email: string, fullName: string, p: ProviderUser)
    ensures SignIn(a, email, Doctor, Returned(p)).0.user.value.id == SignUp(a, email, fullName, Doctor, Returned(p)).0.user.value.id
  {
  }

  /** The exact-address tests add nothing: each address already contains
      its doctor's name. */
  lemma AnandaAddressNamesAnanda()
    ensures Text.Contains(Text.Lower(AnandaEmail), "ananda")
  {
    assert AnandaEmail == "dr." + "ananda" + "@soulcare.com";
    Text.LoweredInfix("dr.", "ananda", "@soulcare.com");
  }

  lemma PriyaAddressNamesPriya()
    ensures Text.Contains(Text.Lower(PriyaEmail), "priya")
  {
    assert PriyaEmail == "dr." + "priya" + "@soulcare.com";
    Text.LoweredInfix("dr.", "priya", "@soulcare.com");
  }

  /** So an email names a doctor exactly when its lower case contains the
      doctor's name. */
  lemma NamesAreSubstringTests(email: string)
    ensures NamesAnanda(email) <==> Text.Contains(Text.Lower(email), "ananda")
    ensures NamesPriya(email) <==> Text.Contains(Text.Lower(email), "priya")
  {
    if email == AnandaEmail {
      AnandaAddressNamesAnanda();
    }
    if email == PriyaEmail {
      PriyaAddressNamesPriya();
    }
  }

  /** `signOut`: storage is cleared first; the user is cleared only when
      the provider's sign-out does not throw. */
  function SignOut(a: Auth, providerFails: bool): (r: Auth)
    ensures r.stored.None? && !r.loading
    ensures r.user == (if providerFails then a.user else None)
  {
    Auth(if providerFails then a.user else None, None, false)
  }

  /** Signing in then out leaves nobody signed in and nothing stored. */
  lemma SignInThenOut(a: Auth, email: string, role: Role, answer: Answer)
    ensures SignOut(SignIn(a, email, role, answer).0, false) == Auth(None, None, false)
  {
  }

  /** `checkSession`: a stored user (already parsed) is restored; without
      one the user stays as it was. */
  function CheckSession(a: Auth, stored: Option<User>): (r: Auth)
    ensures !r.loading && r.stored == stored
    ensures stored.Some? ==> r.user == stored
    ensures stored.None? ==> r.user == a.user
  {
    Auth(if stored.Some? then stored else a.user, stored, false)
  }

  /** After a sign-in, a reload restores the same user. */
  lemma ReloadRestores(a: Auth, email: string, role: Role, p: ProviderUser, before: Auth)
    ensures var signed := SignIn(a, email, role, Returned(p)).0;
            CheckSession(before, signed.stored).user == signed.user
  {
  }

  /** `getAccessToken`: the provider session's token when there is one,
      else a demo token for the signed-in user, else none; a failure to
      read the session gives none. */
  function AccessToken(sessionToken: Option<string>, user: Option<User>, now: nat, fails: bool): (r: Option<string>)
    ensures fails ==> r.None?
    ensures !fails && sessionToken.Some? && sessionToken.value != "" ==> r == sessionToken
    ensures r.None? <==> fails || ((sessionToken.None? || sessionToken.value == "") && user.None?)
    ensures (!fails && (sessionToken.None? || sessionToken.value == "") && user.Some?) ==>
              r.Some? && Text.StartsWith(r.value, "mock_token_" + user.value.id + "_")
  {
    if fails then None
    else if sessionToken.Some? && sessionToken.value != "" then sessionToken
    else if user.Some? then Some("mock_token_" + user.value.id + "_" + Text.NatToString(now))
    else None
  }
}
