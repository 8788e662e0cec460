/**
 * The Supabase auth provider of `src/services/auth/supabase-auth.ts`: how the
 * application user record is put together from the identity backend's user,
 * its session metadata and the (possibly missing) profile row, and how each
 * operation reports failure: sign-in, sign-up and get-user return errors as
 * data, sign-out and the password operations throw.
 *
 * Every backend call is an input: the settled outcome of the auth call and of
 * the profile fetch.
 */
module SupabaseAuth {
  import opened Basics
  import opened Text
  import TenantResolver

  const DEFAULT_NAME: string := "Usuário"
  const SIGN_IN_ERROR: string := "Erro ao fazer login"
  const SIGN_UP_ERROR: string := "Erro ao criar conta"

  datatype Role = Admin | UserRole

  /** The identity backend's user: its id, its email and the `name` of its metadata. */
  datatype AuthUser = AuthUser(id: string, email: Option<string>, metadataName: Option<string>)

  /** A row of `profiles`, every column of which may be missing. */
  datatype Profile = Profile(
    name: Option<string>,
    avatarUrl: Option<string>,
    role: Option<Role>,
    tenantId: Option<string>)

  /** The normalized user of `src/services/auth/types.ts`. */
  datatype User = User(
    id: string,
    email: Option<string>,
    name: Option<string>,
    avatarUrl: Option<string>,
    role: Role,
    tenantId: string)

  datatype Session = Session(token: string)

  /** `{ user, session, error? }`, where `error` is an `Error` and so carries a message. */
  datatype AuthResponse = AuthResponse(user: Option<User>, session: Option<Session>, error: Option<string>)

  /** How a sign-in or sign-up call settled. */
  datatype AuthOutcome =
    | AuthFailed(error: Thrown)                  // `error` in the response, or the call threw
    | NoUser                                     // no error, but no user either
    | Authenticated(user: AuthUser, session: Option<Session>)  // `session` is null while e-mail confirmation is pending

  /** How the profile fetch settled: `.single()` hands back `data: null` on a query error. */
  datatype ProfileFetch = ProfileRow(profile: Profile) | NoProfile | FetchThrew(error: Thrown)

  function ProfileOf(f: ProfileFetch): Option<Profile>
  {
    if f.ProfileRow? then Some(f.profile) else None
  }

  /**
   * `mapUser`: the name is the profile's, else the metadata's, else
   * "Usuário", where an empty string counts as missing; the role defaults to
   * `user`, the tenant to the demo tenant and the email to ''.
   */
  function MapUser(u: AuthUser, p: Option<Profile>): (r: User)
    ensures r.id == u.id && r.email == Some(OrElse(u.email, ""))
    ensures r.name.Some? && r.name.value != ""
    ensures p.Some? && Truthy(p.value.name) ==> r.name == p.value.name
    ensures (p.None? || !Truthy(p.value.name)) && Truthy(u.metadataName) ==> r.name == u.metadataName
    ensures (p.None? || !Truthy(p.value.name)) && !Truthy(u.metadataName) ==> r.name == Some(DEFAULT_NAME)
    ensures r.role == (if p.Some? && p.value.role.Some? then p.value.role.value else UserRole)
    ensures r.tenantId != ""
    ensures r.tenantId == (if p.Some? && Truthy(p.value.tenantId) then p.value.tenantId.value else TenantResolver.DEMO_TENANT_ID)
    ensures r.avatarUrl == (if p.Some? then p.value.avatarUrl else None)
  {
    var pName := if p.Some? then p.value.name else None;
    var pTenant := if p.Some? then p.value.tenantId else None;
    User(
      u.id,
      Some(OrElse(u.email, "")),
      Some(OrElse(pName, OrElse(u.metadataName, DEFAULT_NAME))),
      if p.Some? then p.value.avatarUrl else None,
      if p.Some? && p.value.role.Some? then p.value.role.value else UserRole,
      OrElse(pTenant, TenantResolver.DEMO_TENANT_ID))
  }

  /** The response of `signIn`, and the tenant it hands to `setCurrentTenant`, if any. */
  function SignInResult(auth: AuthOutcome, fetch: ProfileFetch): (r: (AuthResponse, Option<string>))
    ensures r.0.error.Some? <==> auth.AuthFailed? || (auth.Authenticated? && fetch.FetchThrew?)
    ensures r.0.error.Some? ==> r.0.user.None? && r.0.session.None? && r.1.None?
    ensures auth.AuthFailed? ==> r.0.error == Some(MessageOr(auth.error, SIGN_IN_ERROR))
    ensures r.0.user.Some? <==> auth.Authenticated? && !fetch.FetchThrew?
    ensures r.0.user.None? ==> r.0.session.None?
    ensures r.0.user.Some? ==> r.0.user.value == MapUser(auth.user, ProfileOf(fetch)) && r.0.session == auth.session
    ensures r.1.Some? <==> auth.Authenticated? && fetch.ProfileRow? && Truthy(fetch.profile.tenantId)
    ensures r.1.Some? ==> r.0.user.Some? && r.0.user.value.tenantId == r.1.value
  {
    match auth
    case AuthFailed(e) => (AuthResponse(None, None, Some(MessageOr(e, SIGN_IN_ERROR))), None)
    case NoUser => (AuthResponse(None, None, None), None)
    case Authenticated(u, session) =>
      match fetch
      case FetchThrew(e) => (AuthResponse(None, None, Some(MessageOr(e, SIGN_IN_ERROR))), None)
      case NoProfile => (AuthResponse(Some(MapUser(u, None)), session, None), None)
      case ProfileRow(p) =>
        var tenant := if Truthy(p.tenantId) then p.tenantId else None;
        (AuthResponse(Some(MapUser(u, Some(p))), session, None), tenant)
  }

  /**
   * `signIn`: never throws; on success with a profile that names a tenant,
   * that tenant becomes the current one.
   */
  method SignIn(resolver: TenantResolver.Resolver, auth: AuthOutcome, fetch: ProfileFetch) returns (resp: AuthResponse)
    modifies resolver
    ensures resp == SignInResult(auth, fetch).0
    ensures SignInResult(auth, fetch).1.None? ==> resolver.Snapshot() == old(resolver.Snapshot())
    ensures SignInResult(auth, fetch).1.Some? ==>
              resolver.Snapshot() == TenantResolver.SetCurrent(old(resolver.Snapshot()), SignInResult(auth, fetch).1.value)
  {
    var result := SignInResult(auth, fetch);
    if result.1.Some? {
      resolver.SetCurrentTenant(result.1.value);
    }
    resp := result.0;
  }

  /** The user `signUp` synthesizes when the profile fetch throws. */
  function SignUpDefaultUser(u: AuthUser, dataName: Option<string>): (r: User)
    ensures r.role == UserRole && r.tenantId == TenantResolver.DEMO_TENANT_ID
    ensures r.id == u.id && r.email == u.email && r.name == Some(OrElse(dataName, DEFAULT_NAME))
  {
    User(u.id, u.email, Some(OrElse(dataName, DEFAULT_NAME)), None, UserRole, TenantResolver.DEMO_TENANT_ID)
  }

  /**
   * `signUp(email, password, data)` after the fixed wait: a created account
   * always yields a user, whether or not the profile row is there yet, and the
   * session exactly as the backend returned it (none while the e-mail address
   * awaits confirmation).
   */
  function SignUpResult(auth: AuthOutcome, dataName: Option<string>, fetch: ProfileFetch): (r: AuthResponse)
    ensures r.error.Some? <==> auth.AuthFailed?
    ensures r.error.Some? ==> r.user.None? && r.session.None? && r.error == Some(MessageOr(auth.error, SIGN_UP_ERROR))
    ensures r.user.Some? <==> auth.Authenticated?
    ensures r.user.Some? ==> r.session == auth.session && r.user.value.id == auth.user.id
    ensures r.user.None? ==> r.session.None?
    ensures auth.Authenticated? && !fetch.ProfileRow? ==>
              r.user.Some? && r.user.value.role == UserRole && r.user.value.tenantId == TenantResolver.DEMO_TENANT_ID
    ensures auth.Authenticated? && fetch.ProfileRow? ==> r.user == Some(MapUser(auth.user, Some(fetch.profile)))
  {
    match auth
    case AuthFailed(e) => AuthResponse(None, None, Some(MessageOr(e, SIGN_UP_ERROR)))
    case NoUser => AuthResponse(None, None, None)
    case Authenticated(u, session) =>
      match fetch
      case FetchThrew(_) => AuthResponse(Some(SignUpDefaultUser(u, dataName)), session, None)
      case _ => AuthResponse(Some(MapUser(u, ProfileOf(fetch))), session, None)
  }

  /** How `supabase.auth.getUser()` settled. */
  datatype SessionOutcome = SessionThrew | NoSessionUser | SessionUser(user: AuthUser)

  /**
   * `getUser`: null without a session user or when the session call throws;
   * a synthesized default user when only the profile fetch throws.
   */
  function GetUserResult(session: SessionOutcome, fetch: ProfileFetch): (r: Option<User>)
    ensures r.Some? <==> session.SessionUser?
    ensures r.Some? ==> r.value.id == session.user.id
    ensures session.SessionUser? && fetch.FetchThrew? ==>
              r.value.role == UserRole && r.value.tenantId == TenantResolver.DEMO_TENANT_ID
              && r.value.name == Some(OrElse(session.user.metadataName, DEFAULT_NAME))
              && r.value.email == session.user.email
    ensures session.SessionUser? && !fetch.FetchThrew? ==> r == Some(MapUser(session.user, ProfileOf(fetch)))
  {
    match session
    case SessionThrew => None
    case NoSessionUser => None
    case SessionUser(u) =>
      if fetch.FetchThrew? then
        Some(User(u.id, u.email, Some(OrElse(u.metadataName, DEFAULT_NAME)), None, UserRole, TenantResolver.DEMO_TENANT_ID))
      else
        Some(MapUser(u, ProfileOf(fetch)))
  }

  /** When the profile fetch finds no row, sign-in and sign-up build the same user. */
  lemma SignInSignUpAgreeWithoutProfile(u: AuthUser, session: Option<Session>, dataName: Option<string>)
    ensures SignInResult(Authenticated(u, session), NoProfile).0 == SignUpResult(Authenticated(u, session), dataName, NoProfile)
  {
  }
}
