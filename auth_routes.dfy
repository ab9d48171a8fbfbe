/**
 * The authentication routes of the backend: the plan a `/me` reply carries, the
 * development-only fake upgrade with its freshly signed session token, the session
 * cookie, the configuration check of the OAuth callback and the provider listing.
 *
 * The OAuth exchange, the session lookup, the profile store and token signing are
 * services outside this model. They enter as parameters: the current user as an
 * Option, each store call as the value it returns or the error it raises, and the
 * signer as a function from claims, secret and algorithm to a token.
 */
module AuthRoutes {
  import opened Wrappers
  import opened Text
  import opened OrderedMaps

  /** An `HTTPException`: status code and detail text. */
  datatype HttpError = HttpError(status: int, detail: string)

  const NotAuthenticated := HttpError(401, "Not authenticated")
  const MissingEmail := HttpError(400, "Missing email for user")
  const UpgradeFailed := HttpError(500, "Unable to upgrade plan")
  const FrontendNotConfigured := HttpError(500, "Frontend base URL not configured")

  /** The user dictionary the session service resolves; absent keys are None. */
  datatype SessionUser = SessionUser(
    id: string,
    email: Option<string>,
    name: Option<string>,
    picture: Option<string>,
    provider: Option<string>,
    roles: Option<seq<string>>,
    plan: Option<string>)

  /** The stored profile, as far as the routes read it. */
  datatype StoredProfile = StoredProfile(plan: Option<string>)

  /** What a store call raises: the missing-credentials error, which is only logged, or any other. */
  datatype StoreError = MissingCredentials | OtherStoreError

  // ---------------------------------------------------------------------------
  // Plans.

  const FreePlan := "free"
  const FullAccessPlan := "full-access"

  predicate KnownPlan(p: string) {
    p == FreePlan || p == FullAccessPlan
  }

  /** `str(plan or "free")` */
  function PlanText(plan: Option<string>): (t: string)
    ensures Truthy(plan) ==> t == plan.value
    ensures !Truthy(plan) ==> t == FreePlan
  {
    if Truthy(plan) then plan.value else FreePlan
  }

  /** `.replace(" ", "-")`: every space becomes a dash. */
  function SpacesToDashes(s: string): (r: string)
    ensures |r| == |s| && ' ' !in r
    ensures forall i :: 0 <= i < |s| && s[i] != ' ' ==> r[i] == s[i]
  {
    seq(|s|, i requires 0 <= i < |s| => if s[i] == ' ' then '-' else s[i])
  }

  /**
   * The plan written into the `/me` reply: the text stripped, lower-cased and with
   * spaces turned into dashes, and anything but the two known plans read as free.
   */
  function NormalizePlan(plan: Option<string>): (r: string)
    ensures KnownPlan(r)
    ensures r == FullAccessPlan <==> SpacesToDashes(ToLower(Trim(PlanText(plan)))) == FullAccessPlan
  {
    var normalized := SpacesToDashes(ToLower(Trim(PlanText(plan))));
    if KnownPlan(normalized) then normalized else FreePlan
  }

  /** Text already in normal form (no blank at either end, no capital, no space) normalises to itself. */
  lemma NormalFormFixed(p: string)
    requires p == [] || (!IsSpace(p[0]) && !IsSpace(p[|p| - 1]))
    requires forall i :: 0 <= i < |p| ==> !('A' <= p[i] <= 'Z') && p[i] != ' '
    ensures SpacesToDashes(ToLower(Trim(p))) == p
  {
  }

  lemma KnownPlanNormalForm(p: string)
    requires KnownPlan(p)
    ensures SpacesToDashes(ToLower(Trim(p))) == p
  {
    NormalFormFixed(p);
  }

  /** A missing or empty plan is free. */
  lemma NormalizeMissingPlan(plan: Option<string>)
    requires !Truthy(plan)
    ensures NormalizePlan(plan) == FreePlan
  {
  }

  /** The spelling shown on the pricing page normalises to the full-access plan. */
  lemma NormalizeTitleCase()
    ensures NormalizePlan(Some("Full Access")) == FullAccessPlan
  {
    var s := "Full Access";
    assert Trim(s) == s by {
      TrimOfTrimmed(s);
    }
    assert ToLower(s) == "full access";
    assert SpacesToDashes("full access") == FullAccessPlan;
  }

  /** A normalised plan is left as it is by a second normalisation. */
  lemma NormalizePlanIdempotent(plan: Option<string>)
    ensures NormalizePlan(Some(NormalizePlan(plan))) == NormalizePlan(plan)
  {
    NormalizeKnown(NormalizePlan(plan));
  }

  lemma NormalizeKnown(p: string)
    requires KnownPlan(p)
    ensures NormalizePlan(Some(p)) == p
  {
    assert PlanText(Some(p)) == p;
    KnownPlanNormalForm(p);
  }

  /** Normalisation ignores letter case. */
  lemma NormalizePlanCaseInsensitive(s: string)
    ensures NormalizePlan(Some(ToUpper(s))) == NormalizePlan(Some(s))
  {
    assert Truthy(Some(ToUpper(s))) <==> Truthy(Some(s));
    if s != [] {
      TrimUpper(s);
      LowerOfUpper(Trim(s));
    }
  }

  // ---------------------------------------------------------------------------
  // `/me`.

  /** The plan `/me` starts from: the stored profile's when it has a non-empty one, else the session's. */
  function EffectivePlan(user: SessionUser, lookup: Result<Option<StoredProfile>, StoreError>): Option<string> {
    if lookup.Ok? && lookup.value.Some? && Truthy(lookup.value.value.plan) then lookup.value.value.plan
    else user.plan
  }

  /**
   * `me`: 401 without a session; otherwise the session's user with its plan replaced
   * by the normalised plan. A failing profile lookup is logged and the session's plan
   * used; it never fails the request.
   */
  function Me(user: Option<SessionUser>, lookup: Result<Option<StoredProfile>, StoreError>): (r: Result<SessionUser, HttpError>)
    ensures user.None? <==> r == Err(NotAuthenticated)
    ensures user.Some? ==> r.Ok? && r.value.(plan := user.value.plan) == user.value
    ensures r.Ok? ==> r.value.plan.Some? && KnownPlan(r.value.plan.value)
    ensures r.Ok? && lookup.Ok? && lookup.value.Some? && Truthy(lookup.value.value.plan) ==>
      r.value.plan == Some(NormalizePlan(lookup.value.value.plan))
    ensures r.Ok? && (lookup.Err? || lookup.value.None? || !Truthy(lookup.value.value.plan)) ==>
      r.value.plan == Some(NormalizePlan(user.value.plan))
  {
    match user
    case None => Err(NotAuthenticated)
    case Some(u) => Ok(u.(plan := Some(NormalizePlan(EffectivePlan(u, lookup)))))
  }

  // ---------------------------------------------------------------------------
  // The session cookie.

  datatype SameSite = Strict | Lax

  datatype Cookie = Cookie(name: string, value: string, httpOnly: bool, sameSite: SameSite, maxAge: int, secure: bool)

  const SessionCookieName := "session"
  const SessionMaxAge := 60 * 60 * 24 * 7

  /** `ENV.lower() == "production"`, with a missing ENV read as the empty text. */
  predicate IsProduction(env: string) {
    ToLower(env) == "production"
  }

  /** The cookie both the callback and the upgrade set: strict and secure in production only. */
  function SessionCookie(token: string, env: string): (c: Cookie)
    ensures c.name == SessionCookieName && c.value == token
    ensures c.httpOnly && c.maxAge == 604800
    ensures c.secure <==> IsProduction(env)
    ensures c.sameSite == Strict <==> IsProduction(env)
  {
    var isProd := IsProduction(env);
    Cookie(SessionCookieName, token, true, if isProd then Strict else Lax, SessionMaxAge, isProd)
  }

  /** The environment name is compared without regard to letter case. */
  lemma ProductionAnyCase(env: string)
    ensures SessionCookie("", ToUpper(env)).secure == SessionCookie("", env).secure
  {
  }

  /**
   * `oauth_callback` after the code exchange: 500 when no frontend URL is configured,
   * else the page is served with the session cookie holding the exchanged token.
   */
  function OAuthCallback(sessionToken: string, frontendUrl: Option<string>, env: string): (r: Result<Cookie, HttpError>)
    ensures r.Err? <==> !Truthy(frontendUrl)
    ensures r.Err? ==> r.error.status == 500
    ensures r.Ok? ==> r.value == SessionCookie(sessionToken, env)
  {
    if !Truthy(frontendUrl) then Err(FrontendNotConfigured) else Ok(SessionCookie(sessionToken, env))
  }

  // ---------------------------------------------------------------------------
  // The fake upgrade.

  /** `auth_config.jwt` */
  datatype JwtConfig = JwtConfig(secretKey: string, algorithm: string, expireMinutes: int,
                                 audience: Option<string>, issuer: Option<string>)

  const DevSecret := "dev-secret-key"
  const DefaultAlgorithm := "HS256"
  const DefaultExpireMinutes := 60

  /** The claims of the upgraded token. */
  datatype Claims = Claims(
    sub: string,
    email: Option<string>,
    name: Option<string>,
    picture: Option<string>,
    provider: Option<string>,
    roles: seq<string>,
    plan: string,
    iat: int,
    exp: int,
    aud: Option<string>,
    iss: Option<string>)

  /** `user.get("roles") or ["user"]` */
  function RolesOf(user: SessionUser): (roles: seq<string>)
    ensures roles != []
    ensures user.roles.Some? && user.roles.value != [] ==> roles == user.roles.value
    ensures user.roles.None? || user.roles.value == [] ==> roles == ["user"]
  {
    if user.roles.Some? && user.roles.value != [] then user.roles.value else ["user"]
  }

  /**
   * The claims signed by the upgrade: the user's identity, the full-access plan,
   * an expiry `minutes` after `now`, and audience and issuer only when configured
   * and non-empty.
   */
  function UpgradeClaims(user: SessionUser, minutes: int, jwt: Option<JwtConfig>, now: int): (c: Claims)
    ensures c.sub == user.id && c.email == user.email && c.name == user.name
    ensures c.picture == user.picture && c.provider == user.provider
    ensures c.roles == RolesOf(user) && c.plan == FullAccessPlan
    ensures c.iat == now && c.exp == now + minutes * 60
    ensures c.aud.Some? <==> jwt.Some? && Truthy(jwt.value.audience)
    ensures c.aud.Some? ==> c.aud == jwt.value.audience
    ensures c.iss.Some? <==> jwt.Some? && Truthy(jwt.value.issuer)
    ensures c.iss.Some? ==> c.iss == jwt.value.issuer
  {
    var configured := jwt.Some?;
    Claims(user.id, user.email, user.name, user.picture, user.provider, RolesOf(user), FullAccessPlan,
           now, now + minutes * 60,
           if configured && Truthy(jwt.value.audience) then jwt.value.audience else None,
           if configured && Truthy(jwt.value.issuer) then jwt.value.issuer else None)
  }

  /** The lifetime of an upgraded token is the configured number of minutes. */
  lemma UpgradeLifetime(user: SessionUser, jwt: Option<JwtConfig>, now: int)
    ensures var minutes := if jwt.Some? then jwt.value.expireMinutes else DefaultExpireMinutes;
      var c := UpgradeClaims(user, minutes, jwt, now);
      c.exp - c.iat == minutes * 60
    ensures jwt.None? ==> UpgradeClaims(user, DefaultExpireMinutes, jwt, now).exp == now + 3600
  {
  }

  /**
   * The error the store step of the upgrade raises, if any. `profileExists` is what
   * the profile lookup returned or raised; `written` is what the update (for an
   * existing profile) or the insert (for a new one) raised, None when it succeeded.
   * A missing-credentials error is logged and skipped; any other is a 500; a new
   * profile without an email is a 400, checked before anything is written.
   */
  function StoreStep(user: SessionUser, profileExists: Result<bool, StoreError>, written: Option<StoreError>): (e: Option<HttpError>)
    ensures e == Some(MissingEmail) <==> profileExists == Ok(false) && !Truthy(user.email)
    ensures e.Some? ==> e == Some(MissingEmail) || e == Some(UpgradeFailed)
    ensures profileExists == Err(MissingCredentials) ==> e.None?
    ensures profileExists == Err(OtherStoreError) ==> e == Some(UpgradeFailed)
    ensures profileExists.Ok? && (profileExists.value || Truthy(user.email)) ==>
      (e.None? <==> written != Some(OtherStoreError))
  {
    match profileExists
    case Err(raised) => if raised == MissingCredentials then None else Some(UpgradeFailed)
    case Ok(found) =>
      if !found && !Truthy(user.email) then Some(MissingEmail)
      else if written == Some(OtherStoreError) then Some(UpgradeFailed)
      else None
  }

  /** The body and cookie of a successful upgrade. */
  datatype UpgradeReply = UpgradeReply(plan: string, token: string, cookie: Cookie)

  /**
   * `fake_upgrade`: 401 without a session, the store step's error when it raises one,
   * else the full-access plan and a token signed over `UpgradeClaims` with the
   * configured secret, algorithm and lifetime (the environment secret, HS256 and 60
   * minutes when there is no JWT configuration), set again as the session cookie.
   */
  method FakeUpgrade(user: Option<SessionUser>, profileExists: Result<bool, StoreError>, written: Option<StoreError>,
                     envSecret: Option<string>, jwt: Option<JwtConfig>, now: int, env: string,
                     sign: (Claims, string, string) -> string)
    returns (r: Result<UpgradeReply, HttpError>)
    ensures user.None? ==> r == Err(NotAuthenticated)
    ensures user.Some? ==> (r.Err? <==> StoreStep(user.value, profileExists, written).Some?)
    ensures user.Some? && r.Err? ==> r.error == StoreStep(user.value, profileExists, written).value
    ensures r.Ok? ==> r.value.plan == FullAccessPlan && r.value.cookie == SessionCookie(r.value.token, env)
    ensures r.Ok? && jwt.None? ==>
      r.value.token == sign(UpgradeClaims(user.value, DefaultExpireMinutes, jwt, now), envSecret.GetOr(DevSecret), DefaultAlgorithm)
    ensures r.Ok? && jwt.Some? ==>
      r.value.token == sign(UpgradeClaims(user.value, jwt.value.expireMinutes, jwt, now), jwt.value.secretKey, jwt.value.algorithm)
  {
    if user.None? {
      return Err(NotAuthenticated);
    }
    var u := user.value;
    var failure := StoreStep(u, profileExists, written);
    if failure.Some? {
      return Err(failure.value);
    }

    var secret := envSecret.GetOr(DevSecret);
    var algorithm := DefaultAlgorithm;
    var minutes := DefaultExpireMinutes;
    if jwt.Some? {
      secret := jwt.value.secretKey;
      algorithm := jwt.value.algorithm;
      minutes := jwt.value.expireMinutes;
    }

    var issuedAt := now;
    var expiresAt := issuedAt + minutes * 60;
    var claims := Claims(u.id, u.email, u.name, u.picture, u.provider, RolesOf(u), FullAccessPlan,
                         issuedAt, expiresAt, None, None);
    if jwt.Some? {
      if Truthy(jwt.value.audience) {
        claims := claims.(aud := jwt.value.audience);
      }
      if Truthy(jwt.value.issuer) {
        claims := claims.(iss := jwt.value.issuer);
      }
    }

    var token := sign(claims, secret, algorithm);
    r := Ok(UpgradeReply(FullAccessPlan, token, SessionCookie(token, env)));
  }

  // ---------------------------------------------------------------------------
  // `/providers`.

  /** A configured OAuth provider, as far as the listing reads it. */
  datatype Provider = Provider(name: string, scopes: seq<string>)

  datatype ProviderListing = ProviderListing(providers: seq<string>, details: OrderedMap<string, Provider>)

  /** `list_providers`: the provider keys in order, and each key with its name and scopes. */
  function ListProviders(configured: OrderedMap<string, Provider>): (r: ProviderListing)
    ensures r.providers == Keys(configured)
    ensures Keys(r.details) == r.providers
    ensures forall k :: Has(configured, k) ==> Get(r.details, k) == Get(configured, k)
  {
    var details := seq(|configured|, i requires 0 <= i < |configured| =>
      (configured[i].0, Provider(configured[i].1.name, configured[i].1.scopes)));
    assert details == configured;
    ProviderListing(Keys(configured), details)
  }
}
