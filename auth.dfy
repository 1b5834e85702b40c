/** Authentication and role gating: the demo mode that stands in for
    Supabase, the local user created on a first sign-in, and the investor
    and inspector access checks. */
module Auth {
  import opened Common
  import opened Text

  datatype HttpError = HttpError(status: nat, detail: string)

  const Investor := "investor"
  const CmfInspector := "cmf_inspector"

  /** A local user; `id` is None until the database assigns one. */
  datatype User = User(id: Option<nat>, supabaseUid: string, email: string, role: string, fullName: string)

  const DemoInvestor := User(Some(1), "demo-investor-001", "investor@demo.bvmt.tn", Investor, "Demo Investor")
  const DemoInspector := User(Some(2), "demo-inspector-001", "inspector@demo.bvmt.tn", CmfInspector, "Demo CMF Inspector")

  /** DEMO_MODE from the DEMO_MODE environment variable (None: unset). */
  function DemoMode(env: Option<string>): (r: bool)
    ensures env.None? ==> r
    ensures r <==> Lower(env.GetOr("true")) == "true"
  {
    Lower(env.GetOr("true")) == "true"
  }

  /** What Supabase's get_user gave for a token: it raised, it found no
      user, or it found one (its id, email and metadata full name). */
  datatype Lookup = Raised(message: string) | NoUser | Found(uid: string, email: Option<string>, fullName: Option<string>)

  /** The first stored user with the given Supabase id. */
  function FirstWithUid(users: seq<User>, uid: string): (r: Option<User>)
    ensures r.Some? ==> r.value in users && r.value.supabaseUid == uid
    ensures r.None? ==> forall i :: 0 <= i < |users| ==> users[i].supabaseUid != uid
  {
    if |users| == 0 then None
    else if users[0].supabaseUid == uid then Some(users[0])
    else
      var r := FirstWithUid(users[1..], uid);
      assert forall i :: 1 <= i < |users| ==> users[i] == users[1..][i - 1];
      r
  }

  /** The demo user a bearer token selects: the inspector when the
      lowercased token mentions "inspector", else the investor. */
  function DemoUser(credentials: Option<string>): User
  {
    if credentials.Some? && credentials.value != "" && Contains(Lower(credentials.value), "inspector")
    then DemoInspector else DemoInvestor
  }

  /** get_current_user: the user and the users table after the call. */
  function CurrentUser(demo: bool, credentials: Option<string>, lookup: Lookup, users: seq<User>)
    : (r: Result<(User, seq<User>), HttpError>)
    ensures demo ==> r == Ok((DemoUser(credentials), users))
    ensures !demo && credentials.None? ==> r == Err(HttpError(401, "Authentication required"))
    ensures r.Err? ==> r.error.status == 401
    ensures r.Ok? ==> |users| <= |r.value.1| <= |users| + 1 && r.value.1[..|users|] == users
  {
    if demo then Ok((DemoUser(credentials), users))
    else if credentials.None? then Err(HttpError(401, "Authentication required"))
    else
      match lookup
      case Raised(message) => Err(HttpError(401, "Authentication failed: " + message))
      // The HTTPException raised inside the try block is caught by the
      // `except Exception` clause and wrapped, status first.
      case NoUser => Err(HttpError(401, "Authentication failed: 401: Invalid authentication token"))
      case Found(uid, email, fullName) =>
        var existing := FirstWithUid(users, uid);
        if existing.Some? then Ok((existing.value, users))
        else
          var created := User(None, uid, email.GetOr(""), Investor, fullName.GetOr(""));
          Ok((created, users + [created]))
  }

  /** In demo mode the inspector is chosen exactly when the token mentions
      it; outside demo mode a Supabase user seen for the first time is
      stored as an investor, and one already stored is returned as it is,
      the table unchanged. */
  lemma CurrentUserFacts(demo: bool, credentials: Option<string>, lookup: Lookup, users: seq<User>)
    ensures demo ==> (CurrentUser(demo, credentials, lookup, users).value.0 == DemoInspector <==>
                      credentials.Some? && Contains(Lower(credentials.value), "inspector"))
    ensures !demo && credentials.Some? && lookup.Found? && FirstWithUid(users, lookup.uid).None? ==>
      CurrentUser(demo, credentials, lookup, users)
        == Ok((User(None, lookup.uid, lookup.email.GetOr(""), Investor, lookup.fullName.GetOr("")),
               users + [User(None, lookup.uid, lookup.email.GetOr(""), Investor, lookup.fullName.GetOr(""))]))
    ensures !demo && credentials.Some? && lookup.Found? && FirstWithUid(users, lookup.uid).Some? ==>
      CurrentUser(demo, credentials, lookup, users) == Ok((FirstWithUid(users, lookup.uid).value, users))
  {
    if demo && credentials.Some? && Contains(Lower(credentials.value), "inspector") {
      assert credentials.value != "" by {
        var i :| 0 <= i <= |Lower(credentials.value)| - |"inspector"| && OccursAt(Lower(credentials.value), "inspector", i);
      }
    }
  }

  /** get_current_investor: investors and inspectors pass, any other role
      is refused. */
  function RequireInvestor(user: User): (r: Result<User, HttpError>)
    ensures r.Ok? <==> user.role == Investor || user.role == CmfInspector
    ensures r.Ok? ==> r.value == user
    ensures r.Err? ==> r.error == HttpError(403, "Investor access required")
  {
    if user.role != Investor && user.role != CmfInspector then Err(HttpError(403, "Investor access required"))
    else Ok(user)
  }

  /** get_current_inspector: only inspectors pass. */
  function RequireInspector(user: User): (r: Result<User, HttpError>)
    ensures r.Ok? <==> user.role == CmfInspector
    ensures r.Ok? ==> r.value == user
    ensures r.Err? ==> r.error == HttpError(403, "CMF Inspector access required")
  {
    if user.role != CmfInspector then Err(HttpError(403, "CMF Inspector access required")) else Ok(user)
  }

  /** Inspector access implies investor access; in demo mode an
      investor-only token is refused inspector routes, and every user the
      demo hands out, and every user created on first sign-in, has
      investor access. */
  lemma AccessFacts(user: User, credentials: Option<string>, lookup: Lookup, users: seq<User>)
    ensures RequireInspector(user).Ok? ==> RequireInvestor(user).Ok?
    ensures RequireInvestor(DemoUser(credentials)).Ok?
    ensures RequireInspector(DemoUser(credentials)).Ok? <==> DemoUser(credentials) == DemoInspector
    ensures lookup.Found? && credentials.Some? && FirstWithUid(users, lookup.uid).None? ==>
      RequireInvestor(CurrentUser(false, credentials, lookup, users).value.0).Ok?
      && RequireInspector(CurrentUser(false, credentials, lookup, users).value.0).Err?
  {
  }

  /** get_optional_user: the demo investor in demo mode; otherwise the
      stored user of a valid token, and None without credentials, on an
      error or for a user never stored. It never creates a user. */
  function OptionalUser(demo: bool, credentials: Option<string>, lookup: Lookup, users: seq<User>): (r: Option<User>)
    ensures demo ==> r == Some(DemoInvestor)
    ensures !demo && (credentials.None? || !lookup.Found?) ==> r.None?
    ensures !demo && r.Some? ==> r.value in users
  {
    if demo then Some(DemoInvestor)
    else if credentials.None? then None
    else if lookup.Found? then FirstWithUid(users, lookup.uid)
    else None
  }

  /** Outside demo mode the optional user of a valid token is the user
      get_current_user would return, when that user is already stored. */
  lemma OptionalAgreesWithCurrent(credentials: Option<string>, lookup: Lookup, users: seq<User>)
    requires OptionalUser(false, credentials, lookup, users).Some?
    ensures CurrentUser(false, credentials, lookup, users) == Ok((OptionalUser(false, credentials, lookup, users).value, users))
  {
  }
}
