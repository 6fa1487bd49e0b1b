/** The configuration records: `OAuth2Settings` (with its property initialisers) and
    `DocTransAppSettings` with its derived predicates `UsingKeyVault`, `UsingProxy` and
    `UsingOAuth2`. Every reference-typed property may be null. */
module Settings {
  import opened Nullable
  import opened Text
  import opened CloudEnvironment

  /** The OAuth2 block of the application settings. */
  datatype OAuth2Settings = OAuth2Settings(
    clientId: Option<string>,
    tenantId: Option<string>,
    redirectUri: Option<string>,
    scopes: Option<seq<string>>,
    cloudEnvironment: Option<string>)

  /** `new OAuth2Settings()`: loopback redirect, the public-cloud scope, and Azure Government. */
  const DefaultOAuth2: OAuth2Settings := OAuth2Settings(
    None,
    None,
    Some("http://localhost"),
    Some([PublicScope]),
    Some("AzureGovernment"))

  /** The property initialisers, as the settings test checks them. */
  lemma DefaultOAuth2Values()
    ensures DefaultOAuth2.redirectUri == Some("http://localhost")
    ensures DefaultOAuth2.cloudEnvironment == Some("AzureGovernment")
    ensures DefaultOAuth2.scopes.Some? && "https://cognitiveservices.azure.com/.default" in DefaultOAuth2.scopes.value
    ensures DefaultOAuth2.clientId.None? && DefaultOAuth2.tenantId.None?
  {
  }

  datatype ConnectionStrings = ConnectionStrings(storageConnectionString: Option<string>)

  /** The application settings record read from `appsettings.json`. */
  datatype DocTransAppSettings = DocTransAppSettings(
    azureResourceName: Option<string>,
    connectionStrings: Option<ConnectionStrings>,
    subscriptionKey: Option<string>,
    showExperimental: bool,
    category: Option<string>,
    azureRegion: Option<string>,
    azureKeyVaultName: Option<string>,
    textTransEndpoint: Option<string>,
    flightString: Option<string>,
    proxyUseDefaultCredentials: bool,
    proxyAddress: Option<string>,
    oauth2: Option<OAuth2Settings>,
    useOAuth2Authentication: bool)

  /** `new DocTransAppSettings()`: every reference null, every flag false. */
  const Unset: DocTransAppSettings :=
    DocTransAppSettings(None, None, None, false, None, None, None, None, None, false, None, None, false)

  /** `UsingKeyVault`: a key vault is named by something other than white space. */
  function UsingKeyVault(s: DocTransAppSettings): (r: bool)
    ensures r <==> HasVisibleChar(s.azureKeyVaultName)
  {
    TrimsToContent(s.azureKeyVaultName)
  }

  /** `UsingProxy`: a proxy address that is not blank. Both branches of the credentials
      test answer `true`, so the flag has no say. */
  function UsingProxy(s: DocTransAppSettings): (r: bool)
    ensures r <==> HasVisibleChar(s.proxyAddress)
  {
    if !TrimsToContent(s.proxyAddress) then false
    else if s.proxyUseDefaultCredentials then true
    else true
  }

  /** `UsingOAuth2`: the flag is set, the OAuth2 block is present, and both the client id
      and the tenant id have a visible character. */
  function UsingOAuth2(s: DocTransAppSettings): (r: bool)
    ensures r <==>
      && s.useOAuth2Authentication
      && s.oauth2.Some?
      && HasVisibleChar(s.oauth2.value.clientId)
      && HasVisibleChar(s.oauth2.value.tenantId)
  {
    && s.useOAuth2Authentication
    && s.oauth2.Some?
    && TrimsToContent(s.oauth2.value.clientId)
    && TrimsToContent(s.oauth2.value.tenantId)
  }

  /** Whether a proxy is used does not depend on `ProxyUseDefaultCredentials`. */
  lemma UsingProxyIgnoresCredentialsFlag(s: DocTransAppSettings, flag: bool)
    ensures UsingProxy(s.(proxyUseDefaultCredentials := flag)) == UsingProxy(s)
  {
  }

  /** With the flag off, populated ids do not turn OAuth2 on. */
  lemma UsingOAuth2NeedsFlag(s: DocTransAppSettings)
    requires !s.useOAuth2Authentication
    ensures !UsingOAuth2(s)
  {
  }
}
