/** `OAuth2Authentication`: settings validation at construction, authority resolution,
    lazy initialisation of the MSAL application handle, and the token cache stepped by
    silent-first, interactive-fallback acquisition, refresh near expiry, and sign-out.

    The authenticator is a value; each operation takes the identity provider's answers
    and the current time as inputs and returns the next authenticator with its result. */
module OAuth2Authentication {
  import opened Nullable
  import opened Text
  import opened Failures
  import opened CloudEnvironment
  import opened Settings

  /** Tokens within five minutes of expiry are refreshed (time is counted in seconds). */
  const ExpiryBuffer: int := 5 * 60

  /** MSAL's `AuthenticationResult`, reduced to what the core reads. */
  datatype AuthResult = AuthResult(accessToken: string, expiresOn: int, username: string, tenantId: string)

  /** What MSAL answers to one token request. `UiRequired` is `MsalUiRequiredException`;
      `OtherError` is any other exception. */
  datatype Acquisition = Token(result: AuthResult) | UiRequired | OtherError(code: string)

  /** MSAL's answers during one operation of the authenticator. Requests made for an
      account are answered per account, identified by its username. */
  datatype Provider = Provider(
    build: Outcome,                    // PublicClientApplicationBuilder...Build()
    accounts: Result<seq<string>>,     // GetAccountsAsync(): the usernames, in MSAL's order
    refresh: string -> Acquisition,    // AcquireTokenSilent for an account (token refresh)
    silent: string -> Acquisition,     // AcquireTokenSilent for an account (sign-in)
    interactive: Acquisition,          // AcquireTokenInteractive, system browser
    remove: string -> Outcome)         // RemoveAsync(account)

  /** The MSAL public client application handle. */
  datatype App = App(clientId: Option<string>, authority: string, redirectUri: Option<string>)

  /** The authenticator's state: its settings, the handle and the cached result. */
  datatype Authenticator = Authenticator(settings: OAuth2Settings, app: Option<App>, cache: Option<AuthResult>)

  /** An operation's next state together with what it returns or throws. */
  datatype Step<T> = Step(auth: Authenticator, result: Result<T>)

  /** `OAuth2UserInfo`. */
  datatype UserInfo = UserInfo(username: string, name: string, tenantId: string, expiresOn: int)

  /** Settings that construction accepts. */
  predicate ValidSettings(s: OAuth2Settings)
  {
    HasVisibleChar(s.clientId) && HasVisibleChar(s.tenantId) && s.scopes.Some? && |s.scopes.value| > 0
  }

  /** What every reachable authenticator satisfies: its settings passed validation, and a
      cached result is only ever held alongside an initialised handle. */
  predicate Invariant(a: Authenticator)
  {
    ValidSettings(a.settings) && (a.cache.Some? ==> a.app.Some?)
  }

  /** `ValidateSettings`: client id, then tenant id, then scopes, each failing with an
      argument error that names the setting. */
  function ValidateSettings(s: OAuth2Settings): (r: Outcome)
    ensures r.Pass? <==> ValidSettings(s)
    ensures !HasVisibleChar(s.clientId) ==> r == Fail(Argument("ClientId"))
    ensures HasVisibleChar(s.clientId) && !HasVisibleChar(s.tenantId) ==> r == Fail(Argument("TenantId"))
    ensures HasVisibleChar(s.clientId) && HasVisibleChar(s.tenantId) && !ValidSettings(s) ==>
      r == Fail(Argument("Scopes"))
  {
    TrimmedBlankIffWhiteSpace(s.clientId);
    TrimmedBlankIffWhiteSpace(s.tenantId);
    if IsNullOrWhiteSpace(s.clientId) then Fail(Argument("ClientId"))
    else if IsNullOrWhiteSpace(s.tenantId) then Fail(Argument("TenantId"))
    else if s.scopes.None? || |s.scopes.value| == 0 then Fail(Argument("Scopes"))
    else Pass
  }

  /** The constructor: null settings, then invalid settings, are refused at once; an
      accepted authenticator starts without a handle or a cached result. */
  function New(settings: Option<OAuth2Settings>): (r: Result<Authenticator>)
    ensures settings.None? ==> r == Err(ArgumentNull)
    ensures settings.Some? ==> (r.Ok? <==> ValidSettings(settings.value))
    ensures r.Err? ==> r.error == ArgumentNull || r.error.Argument?
    ensures settings.Some? && r.Err? ==> ValidateSettings(settings.value) == Fail(r.error)
    ensures r.Ok? ==> r.value == Authenticator(settings.value, None, None) && Invariant(r.value)
  {
    match settings
    case None => Err(ArgumentNull)
    case Some(s) =>
      match ValidateSettings(s)
      case Fail(e) => Err(e)
      case Pass => Ok(Authenticator(s, None, None))
  }

  /** The construction cases of the xUnit tests: null settings, an empty client id, an
      empty tenant id and an empty scope list are refused; ids over the default block pass. */
  lemma ConstructionExamples()
    ensures New(None) == Err(ArgumentNull)
    ensures New(Some(DefaultOAuth2.(clientId := Some(""), tenantId := Some("valid-tenant-id"))))
         == Err(Argument("ClientId"))
    ensures New(Some(DefaultOAuth2.(clientId := Some("valid-client-id"), tenantId := Some(""))))
         == Err(Argument("TenantId"))
    ensures New(Some(DefaultOAuth2.(clientId := Some("valid-client-id"), tenantId := Some("valid-tenant-id"),
                                    scopes := Some([]))))
         == Err(Argument("Scopes"))
    ensures New(Some(DefaultOAuth2.(clientId := Some("test-client-id"), tenantId := Some("test-tenant")))).Ok?
    ensures Initialize(New(Some(DefaultOAuth2.(clientId := Some("test-client-id"), tenantId := Some("test-tenant")))).value,
                       Pass).result.Ok?
  {
    assert !IsWhiteSpace("valid-client-id"[0]);
    assert !IsWhiteSpace("valid-tenant-id"[0]);
    assert !IsWhiteSpace("test-client-id"[0]);
    assert !IsWhiteSpace("test-tenant"[0]);
  }

  /** `GetAuthorityUrl`: the case-insensitive alias table, defaulting to Azure Government. */
  function GetAuthorityUrl(cloudEnvironment: string, tenantId: string): (r: string)
    ensures ToLowerInvariant(cloudEnvironment) in GovernmentAliases ==> r == GovernmentAuthority + tenantId
    ensures ToLowerInvariant(cloudEnvironment) in ChinaAliases ==> r == ChinaAuthority + tenantId
    ensures ToLowerInvariant(cloudEnvironment) in PublicAliases ==> r == PublicAuthority + tenantId
    ensures ToLowerInvariant(cloudEnvironment) !in GovernmentAliases + ChinaAliases + PublicAliases ==>
      r == GovernmentAuthority + tenantId
  {
    var env := ToLowerInvariant(cloudEnvironment);
    if env == "azuregovernment" || env == "government" || env == "gov" then
      "https://login.microsoftonline.us/" + tenantId
    else if env == "azurechina" || env == "china" then
      "https://login.chinacloudapi.cn/" + tenantId
    else if env == "azurepublic" || env == "public" || env == "commercial" then
      "https://login.microsoftonline.com/" + tenantId
    else
      "https://login.microsoftonline.us/" + tenantId
  }

  /** The authority agrees with the reference classification, reads back as that cloud,
      and ends in a slash followed by the tenant id. */
  lemma AuthorityMatchesCloud(cloudEnvironment: string, tenantId: string)
    ensures GetAuthorityUrl(cloudEnvironment, tenantId) == AuthorityBase(Classify(cloudEnvironment)) + tenantId
    ensures AuthorityCloud(GetAuthorityUrl(cloudEnvironment, tenantId)) == Some(Classify(cloudEnvironment))
    ensures var r := GetAuthorityUrl(cloudEnvironment, tenantId);
      |r| > |tenantId| && r[|r| - |tenantId| - 1..] == "/" + tenantId
  {
    var r := GetAuthorityUrl(cloudEnvironment, tenantId);
    var base := AuthorityBase(Classify(cloudEnvironment));
    AuthorityCloudRoundTrip(Classify(cloudEnvironment), tenantId);
    assert r[|r| - |tenantId| - 1..] == [base[|base| - 1]] + tenantId;
  }

  /** Names that differ only in letter case resolve to the same authority. */
  lemma AuthorityCaseInsensitive(env1: string, env2: string, tenantId: string)
    requires ToLowerInvariant(env1) == ToLowerInvariant(env2)
    ensures GetAuthorityUrl(env1, tenantId) == GetAuthorityUrl(env2, tenantId)
  {
  }

  /** String interpolation renders null as nothing. */
  function OrEmpty(s: Option<string>): string
  {
    if s.Some? then s.value else ""
  }

  /** `Initialize`: builds the handle for the resolved authority. A null cloud environment
      (the lower-casing dereferences it) or a builder failure is wrapped as an OAuth2
      authentication error and leaves the authenticator as it was. */
  function Initialize(a: Authenticator, build: Outcome): (r: Step<()>)
    ensures r.result.Ok? <==> a.settings.cloudEnvironment.Some? && build.Pass?
    ensures a.settings.cloudEnvironment.None? ==> r.result == Err(OAuth2AuthError(NullReference))
    ensures a.settings.cloudEnvironment.Some? && build.Fail? ==> r.result == Err(OAuth2AuthError(build.error))
    ensures r.result.Err? ==> r.auth == a && r.result.error.OAuth2AuthError?
    ensures r.result.Ok? ==>
      && r.auth.settings == a.settings
      && r.auth.cache == a.cache
      && r.auth.app.Some?
      && r.auth.app.value.clientId == a.settings.clientId
      && r.auth.app.value.redirectUri == a.settings.redirectUri
      && r.auth.app.value.authority ==
           AuthorityBase(Classify(a.settings.cloudEnvironment.value)) + OrEmpty(a.settings.tenantId)
  {
    match a.settings.cloudEnvironment
    case None => Step(a, Err(OAuth2AuthError(NullReference)))
    case Some(env) =>
      AuthorityMatchesCloud(env, OrEmpty(a.settings.tenantId));
      var authority := GetAuthorityUrl(env, OrEmpty(a.settings.tenantId));
      match build
      case Fail(e) => Step(a, Err(OAuth2AuthError(e)))
      case Pass => Step(a.(app := Some(App(a.settings.clientId, authority, a.settings.redirectUri))), Ok(()))
  }

  /** Initialising a second time rebuilds the same handle. */
  lemma InitializeIdempotent(a: Authenticator, build: Outcome)
    requires Initialize(a, build).result.Ok?
    ensures Initialize(Initialize(a, build).auth, build) == Initialize(a, build)
  {
  }

  /** Caches a freshly acquired result and returns its access token. */
  function Accept(a: Authenticator, t: AuthResult): Step<string>
  {
    Step(a.(cache := Some(t)), Ok(t.accessToken))
  }

  /** `AuthenticateInteractiveAsync`: initialise if there is no handle; with at least one
      account, try silent acquisition for the first; on `UiRequired` (or with no account)
      acquire interactively. Every failure is wrapped, and then the cache is untouched. */
  function AuthenticateInteractive(a: Authenticator, p: Provider): (r: Step<string>)
    ensures r.auth.settings == a.settings
    ensures a.app.Some? ==> r.auth.app == a.app
    ensures a.app.None? && Initialize(a, p.build).result.Err? ==>
      r == Step(a, Err(Initialize(a, p.build).result.error))
    ensures a.app.None? && Initialize(a, p.build).result.Ok? ==> r.auth.app == Initialize(a, p.build).auth.app
    ensures r.result.Ok? <==>
      && (a.app.Some? || Initialize(a, p.build).result.Ok?)
      && p.accounts.Ok?
      && if p.accounts.value != [] && !p.silent(p.accounts.value[0]).UiRequired?
         then p.silent(p.accounts.value[0]).Token?
         else p.interactive.Token?
    ensures r.result.Ok? ==>
      && r.auth.app.Some?
      && r.auth.cache.Some?
      && r.result.value == r.auth.cache.value.accessToken
      && r.auth.cache.value ==
           if p.accounts.value != [] && p.silent(p.accounts.value[0]).Token?
           then p.silent(p.accounts.value[0]).result
           else p.interactive.result
    ensures r.result.Err? ==> r.auth.cache == a.cache && r.result.error.OAuth2AuthError?
    ensures (a.app.Some? || Initialize(a, p.build).result.Ok?) && r.result.Err? ==>
      r.result.error == OAuth2AuthError(
        if p.accounts.Err? then p.accounts.error
        else if p.accounts.value != [] && p.silent(p.accounts.value[0]).OtherError? then
          Msal(p.silent(p.accounts.value[0]).code)
        else if p.interactive.UiRequired? then MsalUiRequired
        else Msal(p.interactive.code))
  {
    var init := if a.app.None? then Initialize(a, p.build) else Step(a, Ok(()));
    if init.result.Err? then Step(a, Err(init.result.error))
    else
      var a1 := init.auth;
      match p.accounts
      case Err(e) => Step(a1, Err(OAuth2AuthError(e)))
      case Ok(accounts) =>
        var silent := if accounts != [] then p.silent(accounts[0]) else UiRequired;
        if silent.Token? then Accept(a1, silent.result)
        else if silent.OtherError? then Step(a1, Err(OAuth2AuthError(Msal(silent.code))))
        else
          match p.interactive
          case Token(t) => Accept(a1, t)
          case UiRequired => Step(a1, Err(OAuth2AuthError(MsalUiRequired)))
          case OtherError(code) => Step(a1, Err(OAuth2AuthError(Msal(code))))
  }

  /** Silent acquisition is only attempted when MSAL knows an account. */
  lemma SilentNeedsAccount(a: Authenticator, p: Provider, other: string -> Acquisition)
    requires p.accounts == Ok([])
    ensures AuthenticateInteractive(a, p) == AuthenticateInteractive(a, p.(silent := other))
  {
  }

  /** A silent `UiRequired` answer falls through exactly as if there had been no account. */
  lemma UiRequiredFallsThrough(a: Authenticator, p: Provider)
    requires p.accounts.Ok? && p.accounts.value != [] && p.silent(p.accounts.value[0]) == UiRequired
    ensures AuthenticateInteractive(a, p) == AuthenticateInteractive(a, p.(accounts := Ok([])))
  {
  }

  /** Any other silent failure is reported, wrapped, without trying interactive sign-in. */
  lemma SilentErrorIsWrapped(a: Authenticator, p: Provider, code: string)
    requires a.app.Some? && p.accounts.Ok? && p.accounts.value != [] && p.silent(p.accounts.value[0]) == OtherError(code)
    ensures AuthenticateInteractive(a, p) == Step(a, Err(OAuth2AuthError(Msal(code))))
  {
  }

  /** Silent sign-in asks only about the first account: answers for any other account do
      not matter. */
  lemma SilentAsksFirstAccount(a: Authenticator, p: Provider, other: string -> Acquisition)
    requires p.accounts.Ok? && p.accounts.value != [] && other(p.accounts.value[0]) == p.silent(p.accounts.value[0])
    ensures AuthenticateInteractive(a, p) == AuthenticateInteractive(a, p.(silent := other))
  {
  }

  /** `FirstOrDefault(x => x.Username == username)`: the first position holding `username`. */
  function FindAccount(accounts: seq<string>, username: string): (r: Option<nat>)
    ensures r.None? <==> username !in accounts
    ensures r.Some? ==> r.value < |accounts| && accounts[r.value] == username
    ensures r.Some? ==> forall j :: 0 <= j < r.value ==> accounts[j] != username
    decreases |accounts|
  {
    if accounts == [] then None
    else if accounts[0] == username then Some(0)
    else
      match FindAccount(accounts[1..], username)
      case None => None
      case Some(i) => Some(i + 1)
  }

  /** Whether the token refresh of `GetAccessTokenAsync` succeeds: a handle, an account
      listing that holds the cached username, and a token from the silent request. */
  predicate RefreshSucceeds(a: Authenticator, username: string, p: Provider)
  {
    a.app.Some? && p.accounts.Ok? && username in p.accounts.value && p.refresh(username).Token?
  }

  /** The token refresh: the new result, or `None` for every way it can fail (a missing
      handle, a failed account listing, no matching account, `UiRequired`, any other error). */
  function TryRefresh(a: Authenticator, username: string, p: Provider): (r: Option<AuthResult>)
    ensures r.Some? <==> RefreshSucceeds(a, username, p)
    ensures r.Some? ==> r.value == p.refresh(username).result
  {
    if a.app.None? then None
    else
      match p.accounts
      case Err(_) => None
      case Ok(accounts) =>
        match FindAccount(accounts, username)
        case None => None
        case Some(i) =>
          match p.refresh(accounts[i])
          case Token(t) => Some(t)
          case _ => None
  }

  /** `GetAccessTokenAsync` at time `now`. */
  function GetAccessToken(a: Authenticator, now: int, p: Provider): (r: Step<string>)
    ensures a.cache.None? ==> r == AuthenticateInteractive(a, p)
    ensures a.cache.Some? && a.cache.value.expiresOn > now + ExpiryBuffer ==>
      r == Step(a, Ok(a.cache.value.accessToken))
    ensures a.cache.Some? && a.cache.value.expiresOn <= now + ExpiryBuffer ==>
      if RefreshSucceeds(a, a.cache.value.username, p)
      then r == Step(a.(cache := Some(p.refresh(a.cache.value.username).result)),
                     Ok(p.refresh(a.cache.value.username).result.accessToken))
      else r == AuthenticateInteractive(a, p)
    ensures r.result.Err? ==> r == AuthenticateInteractive(a, p)
    ensures r.result.Ok? ==> r.auth.cache.Some? && r.result.value == r.auth.cache.value.accessToken
    ensures r.auth.settings == a.settings
  {
    match a.cache
    case None => AuthenticateInteractive(a, p)
    case Some(c) =>
      if c.expiresOn > now + ExpiryBuffer then Step(a, Ok(c.accessToken))
      else
        match TryRefresh(a, c.username, p)
        case Some(t) => Accept(a, t)
        case None => AuthenticateInteractive(a, p)
  }

  /** A token that is still fresh is served without asking the identity provider anything. */
  lemma FreshTokenNeedsNoProvider(a: Authenticator, now: int, p: Provider, q: Provider)
    requires a.cache.Some? && a.cache.value.expiresOn > now + ExpiryBuffer
    ensures GetAccessToken(a, now, p) == GetAccessToken(a, now, q)
    ensures GetAccessToken(a, now, p).auth == a
  {
  }

  /** The refresh asks only about the account holding the cached username. */
  lemma RefreshAsksCachedUser(a: Authenticator, now: int, p: Provider, other: string -> Acquisition)
    requires a.cache.Some? && other(a.cache.value.username) == p.refresh(a.cache.value.username)
    ensures GetAccessToken(a, now, p) == GetAccessToken(a, now, p.(refresh := other))
  {
  }

  /** `SignOutAsync`: with a handle and a cached result, list the accounts, remove the one
      with the cached username if there is one, then clear the cache. Failures are wrapped
      and leave the authenticator unchanged. */
  function SignOut(a: Authenticator, p: Provider): (r: Step<()>)
    ensures a.app.None? || a.cache.None? ==> r == Step(a, Ok(()))
    ensures r.result.Err? ==> r.auth == a && r.result.error.OAuth2AuthError?
    ensures a.app.Some? && r.result.Ok? ==> r.auth == a.(cache := None)
    ensures a.app.Some? && a.cache.Some? ==>
      (r.result.Ok? <==> p.accounts.Ok? && (a.cache.value.username in p.accounts.value ==> p.remove(a.cache.value.username).Pass?))
    ensures a.app.Some? && a.cache.Some? && r.result.Err? ==>
      r.result.error == OAuth2AuthError(if p.accounts.Err? then p.accounts.error else p.remove(a.cache.value.username).error)
  {
    if a.app.None? || a.cache.None? then Step(a, Ok(()))
    else
      match p.accounts
      case Err(e) => Step(a, Err(OAuth2AuthError(e)))
      case Ok(accounts) =>
        match FindAccount(accounts, a.cache.value.username)
        case Some(i) =>
          if p.remove(accounts[i]).Fail? then Step(a, Err(OAuth2AuthError(p.remove(accounts[i]).error)))
          else Step(a.(cache := None), Ok(()))
        case None => Step(a.(cache := None), Ok(()))
  }

  /** `GetCurrentUser`: absent exactly when nothing is cached; the display name is the
      username, since MSAL does not always supply one. */
  function GetCurrentUser(a: Authenticator): (u: Option<UserInfo>)
    ensures u.None? <==> a.cache.None?
    ensures u.Some? ==>
      && u.value.username == a.cache.value.username
      && u.value.name == u.value.username
      && u.value.tenantId == a.cache.value.tenantId
      && u.value.expiresOn == a.cache.value.expiresOn
  {
    match a.cache
    case None => None
    case Some(c) => Some(UserInfo(c.username, c.username, c.tenantId, c.expiresOn))
  }

  /** The operations a caller can invoke on an authenticator. */
  datatype Call = InitializeCall | AuthenticateCall | GetAccessTokenCall(now: int) | SignOutCall

  /** The state after one call, whatever it returned. */
  function Apply(a: Authenticator, call: Call, p: Provider): Authenticator
  {
    match call
    case InitializeCall => Initialize(a, p.build).auth
    case AuthenticateCall => AuthenticateInteractive(a, p).auth
    case GetAccessTokenCall(now) => GetAccessToken(a, now, p).auth
    case SignOutCall => SignOut(a, p).auth
  }

  /** The state after a sequence of calls, each with MSAL's answers for it. */
  function Run(a: Authenticator, calls: seq<(Call, Provider)>): Authenticator
    decreases |calls|
  {
    if calls == [] then a else Run(Apply(a, calls[0].0, calls[0].1), calls[1..])
  }

  /** Every call keeps the invariant. */
  lemma ApplyKeepsInvariant(a: Authenticator, call: Call, p: Provider)
    requires Invariant(a)
    ensures Invariant(Apply(a, call, p))
  {
  }

  /** Any authenticator the constructor accepts keeps a cached result only alongside an
      initialised handle, after any sequence of calls and answers. */
  lemma {:induction false} RunKeepsInvariant(a: Authenticator, calls: seq<(Call, Provider)>)
    requires Invariant(a)
    ensures Invariant(Run(a, calls))
    decreases |calls|
  {
    if calls != [] {
      ApplyKeepsInvariant(a, calls[0].0, calls[0].1);
      RunKeepsInvariant(Apply(a, calls[0].0, calls[0].1), calls[1..]);
    }
  }
}
