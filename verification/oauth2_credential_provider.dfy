/** `OAuth2CredentialProvider`, the `TokenCredential` adapter over an authenticator, and
    `OAuth2ServiceClientFactory`, which builds one from the application settings. */
module OAuth2CredentialProvider {
  import opened Nullable
  import opened Text
  import opened Failures
  import opened CloudEnvironment
  import opened Settings
  import opened OAuth2Authentication

  /** Expiry reported when no user is known: one hour from now, in seconds. */
  const OneHour: int := 60 * 60

  /** The constructor's default for its scope parameter: the Azure Government scope. */
  const DefaultScopeArgument: string := GovernmentScope

  /** The adapter: the wrapped authenticator and the scope it was given (stored, never read). */
  datatype CredentialProvider = CredentialProvider(auth: Authenticator, defaultScope: Option<string>)

  /** Azure.Core's `AccessToken`. */
  datatype AccessToken = AccessToken(token: string, expiresOn: int)

  /** The adapter after a token request, with what the request returned or threw. */
  datatype TokenStep = TokenStep(provider: CredentialProvider, result: Result<AccessToken>)

  /** The constructor refuses a null authenticator and keeps whatever scope it is given. */
  function NewCredentialProvider(auth: Option<Authenticator>, defaultScope: Option<string>): (r: Result<CredentialProvider>)
    ensures r.Err? <==> auth.None?
    ensures r.Err? ==> r.error == ArgumentNull
    ensures r.Ok? ==> r.value.auth == auth.value && r.value.defaultScope == defaultScope
  {
    match auth
    case None => Err(ArgumentNull)
    case Some(a) => Ok(CredentialProvider(a, defaultScope))
  }

  /** The constructor called without a scope: the adapter keeps the Azure Government scope. */
  function NewCredentialProviderDefault(auth: Option<Authenticator>): (r: Result<CredentialProvider>)
    ensures r.Err? <==> auth.None?
    ensures r.Ok? ==>
      && r.value.auth == auth.value
      && r.value.defaultScope.Some?
      && ScopeCloud(r.value.defaultScope.value) == Some(Government)
  {
    ScopeCloudRoundTrip(Government);
    NewCredentialProvider(auth, Some(DefaultScopeArgument))
  }

  /** `GetTokenAsync`: the requested scopes and the stored scope play no part; the token is
      the authenticator's, its expiry the cached result's, and a failure is wrapped once more. */
  function GetTokenAsync(c: CredentialProvider, requestedScopes: seq<string>, now: int, p: Provider): (r: TokenStep)
    ensures var s := GetAccessToken(c.auth, now, p);
      && r.provider == c.(auth := s.auth)
      && (r.result.Ok? <==> s.result.Ok?)
      && (r.result.Ok? ==>
            && r.result.value.token == s.result.value
            && s.auth.cache.Some?
            && r.result.value.expiresOn == s.auth.cache.value.expiresOn)
      && (r.result.Err? ==> r.result.error == OAuth2AuthError(s.result.error))
  {
    var s := GetAccessToken(c.auth, now, p);
    var next := c.(auth := s.auth);
    match s.result
    case Err(e) => TokenStep(next, Err(OAuth2AuthError(e)))
    case Ok(token) =>
      var user := GetCurrentUser(s.auth);
      var expiresOn := if user.Some? then user.value.expiresOn else now + OneHour;
      TokenStep(next, Ok(AccessToken(token, expiresOn)))
  }

  /** The token does not depend on the scopes asked for nor on the stored default scope. */
  lemma TokenIgnoresScopes(c: CredentialProvider, scopes1: seq<string>, scopes2: seq<string>,
                           otherScope: Option<string>, now: int, p: Provider)
    ensures GetTokenAsync(c, scopes1, now, p).result
         == GetTokenAsync(c.(defaultScope := otherScope), scopes2, now, p).result
  {
  }

  /** An adapter failure is always an authentication error wrapped around another one. */
  lemma AsyncErrorIsDoublyWrapped(c: CredentialProvider, scopes: seq<string>, now: int, p: Provider)
    requires GetTokenAsync(c, scopes, now, p).result.Err?
    ensures WrapDepth(GetTokenAsync(c, scopes, now, p).result.error) >= 2
  {
  }

  /** `GetToken`: the synchronous path runs the asynchronous one to completion and wraps
      its failure one level further. */
  function GetToken(c: CredentialProvider, requestedScopes: seq<string>, now: int, p: Provider): (r: TokenStep)
    ensures var s := GetTokenAsync(c, requestedScopes, now, p);
      && r.provider == s.provider
      && (s.result.Ok? ==> r.result == s.result)
      && (s.result.Err? ==> r.result == Err(OAuth2AuthError(s.result.error)))
  {
    var s := GetTokenAsync(c, requestedScopes, now, p);
    match s.result
    case Ok(_) => s
    case Err(e) => TokenStep(s.provider, Err(OAuth2AuthError(e)))
  }

  /** Both entry points hand out the same token, and a synchronous failure carries exactly
      one more wrapping than the asynchronous one. */
  lemma SyncMatchesAsync(c: CredentialProvider, scopes: seq<string>, now: int, p: Provider)
    ensures var s := GetTokenAsync(c, scopes, now, p);
      var t := GetToken(c, scopes, now, p);
      && (t.result.Ok? <==> s.result.Ok?)
      && (t.result.Ok? ==> t.result.value == s.result.value)
      && (t.result.Err? ==> WrapDepth(t.result.error) == WrapDepth(s.result.error) + 1)
  {
  }

  /** `GetDefaultScope`: the case-insensitive alias table; null and unknown names give the
      Azure Government scope. */
  function GetDefaultScope(cloudEnvironment: Option<string>): (r: string)
    ensures cloudEnvironment.None? ==> r == GovernmentScope
    ensures cloudEnvironment.Some? && ToLowerInvariant(cloudEnvironment.value) in GovernmentAliases ==> r == GovernmentScope
    ensures cloudEnvironment.Some? && ToLowerInvariant(cloudEnvironment.value) in ChinaAliases ==> r == ChinaScope
    ensures cloudEnvironment.Some? && ToLowerInvariant(cloudEnvironment.value) in PublicAliases ==> r == PublicScope
    ensures cloudEnvironment.Some?
      && ToLowerInvariant(cloudEnvironment.value) !in GovernmentAliases + ChinaAliases + PublicAliases
      ==> r == GovernmentScope
  {
    match cloudEnvironment
    case None => "https://cognitiveservices.azure.us/.default"
    case Some(env) =>
      var e := ToLowerInvariant(env);
      if e == "azuregovernment" || e == "government" || e == "gov" then "https://cognitiveservices.azure.us/.default"
      else if e == "azurechina" || e == "china" then "https://cognitiveservices.azure.cn/.default"
      else if e == "azurepublic" || e == "public" || e == "commercial" then "https://cognitiveservices.azure.com/.default"
      else "https://cognitiveservices.azure.us/.default"
  }

  /** The scope agrees with the reference classification and reads back as that cloud. */
  lemma DefaultScopeMatchesCloud(cloudEnvironment: string)
    ensures GetDefaultScope(Some(cloudEnvironment)) == ScopeOf(Classify(cloudEnvironment))
    ensures ScopeCloud(GetDefaultScope(Some(cloudEnvironment))) == Some(Classify(cloudEnvironment))
  {
  }

  /** The cloud a possibly-null environment setting selects for the scope. */
  function ConfiguredCloud(cloudEnvironment: Option<string>): Cloud
  {
    if cloudEnvironment.Some? then Classify(cloudEnvironment.value) else Government
  }

  /** Null included, the default scope belongs to the configured cloud. */
  lemma DefaultScopeNamesConfiguredCloud(cloudEnvironment: Option<string>)
    ensures ScopeCloud(GetDefaultScope(cloudEnvironment)) == Some(ConfiguredCloud(cloudEnvironment))
  {
  }

  /** For every non-null environment name, the authority and the default scope name the
      same cloud. */
  lemma AuthorityAndScopeAgree(cloudEnvironment: string, tenantId: string)
    ensures AuthorityCloud(GetAuthorityUrl(cloudEnvironment, tenantId))
         == ScopeCloud(GetDefaultScope(Some(cloudEnvironment)))
  {
    AuthorityMatchesCloud(cloudEnvironment, tenantId);
    DefaultScopeMatchesCloud(cloudEnvironment);
  }

  /** `UsingOAuth2` already guarantees that the client-id and tenant-id checks of
      construction pass, so only the scopes can still be refused. */
  lemma UsingOAuth2PassesIdChecks(s: DocTransAppSettings)
    requires UsingOAuth2(s)
    ensures ValidateSettings(s.oauth2.value) != Fail(Argument("ClientId"))
    ensures ValidateSettings(s.oauth2.value) != Fail(Argument("TenantId"))
    ensures ValidateSettings(s.oauth2.value).Pass? <==>
      s.oauth2.value.scopes.Some? && |s.oauth2.value.scopes.value| > 0
  {
  }

  /** `CreateCredential`: refused with an invalid-operation error exactly when OAuth2 is not
      in use; otherwise the authenticator's construction decides, which can now only refuse
      empty scopes, and the adapter gets the scope of the configured cloud. */
  function CreateCredential(settings: DocTransAppSettings): (r: Result<CredentialProvider>)
    ensures r == Err(InvalidOperation) <==> !UsingOAuth2(settings)
    ensures UsingOAuth2(settings) ==>
      (r.Ok? <==> settings.oauth2.value.scopes.Some? && |settings.oauth2.value.scopes.value| > 0)
    ensures UsingOAuth2(settings) && r.Err? ==> r.error == Argument("Scopes")
    ensures r.Ok? ==>
      && r.value.auth == Authenticator(settings.oauth2.value, None, None)
      && r.value.defaultScope.Some?
      && ScopeCloud(r.value.defaultScope.value) == Some(ConfiguredCloud(settings.oauth2.value.cloudEnvironment))
  {
    if !UsingOAuth2(settings) then Err(InvalidOperation)
    else
      UsingOAuth2PassesIdChecks(settings);
      match New(settings.oauth2)
      case Err(e) => Err(e)
      case Ok(a) =>
        var env := settings.oauth2.value.cloudEnvironment;
        DefaultScopeNamesConfiguredCloud(env);
        NewCredentialProvider(Some(a), Some(GetDefaultScope(env)))
  }

  /** The scope table on the names the factory's xUnit theory uses, including an unknown one. */
  lemma DefaultScopeExamples()
    ensures GetDefaultScope(Some("AzureGovernment")) == "https://cognitiveservices.azure.us/.default"
    ensures GetDefaultScope(Some("government")) == "https://cognitiveservices.azure.us/.default"
    ensures GetDefaultScope(Some("AzureChina")) == "https://cognitiveservices.azure.cn/.default"
    ensures GetDefaultScope(Some("china")) == "https://cognitiveservices.azure.cn/.default"
    ensures GetDefaultScope(Some("AzurePublic")) == "https://cognitiveservices.azure.com/.default"
    ensures GetDefaultScope(Some("public")) == "https://cognitiveservices.azure.com/.default"
    ensures GetDefaultScope(Some("unknown")) == "https://cognitiveservices.azure.us/.default"
  {
    assert ToLowerInvariant("AzureGovernment") == "azuregovernment";
    assert ToLowerInvariant("government") == "government";
    assert ToLowerInvariant("AzureChina") == "azurechina";
    assert ToLowerInvariant("china") == "china";
    assert ToLowerInvariant("AzurePublic") == "azurepublic";
    assert ToLowerInvariant("public") == "public";
    assert ToLowerInvariant("unknown") == "unknown";
  }

  /** The settings of the factory's xUnit theory yield a credential for every cloud name:
      the default scope list is non-empty. */
  lemma FactoryAcceptsConfiguredSettings(cloudEnvironment: string)
    ensures var s := Unset.(
        useOAuth2Authentication := true,
        oauth2 := Some(DefaultOAuth2.(clientId := Some("test-client-id"),
                                      tenantId := Some("test-tenant-id"),
                                      cloudEnvironment := Some(cloudEnvironment))));
      UsingOAuth2(s) && CreateCredential(s).Ok?
  {
  }

  /** The flag alone decides refusal: with it off, fully populated OAuth2 settings are refused. */
  lemma FactoryRefusesWhenFlagOff(s: DocTransAppSettings)
    requires !s.useOAuth2Authentication
    ensures CreateCredential(s) == Err(InvalidOperation)
  {
  }

  /** Out of the box the settings disagree with themselves: the default cloud is Azure
      Government, but the default scope list asks for the public cloud's scope, and the
      authenticator requests exactly that list whatever scope the factory hands the adapter. */
  lemma DefaultSettingsMixClouds(tenantId: string)
    ensures AuthorityCloud(GetAuthorityUrl(DefaultOAuth2.cloudEnvironment.value, tenantId)) == Some(Government)
    ensures ScopeCloud(DefaultOAuth2.scopes.value[0]) == Some(Public)
  {
  }
}
