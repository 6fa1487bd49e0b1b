# OAuth2 token acquisition and credentials of DocumentTranslation, in Dafny

This project models the OAuth2 layer of the DocumentTranslation service and proves
properties about it. The layer covers:

- resolving a cloud environment name (Azure Government, Azure China, Azure Public) to a
  login authority and to a Cognitive Services `.default` scope;
- validating the `OAuth2Settings` block when an `OAuth2Authentication` is constructed;
- the `OAuth2Authentication` token cache. Silent acquisition is tried first and interactive
  sign-in is the fallback. A cached token within five minutes of expiry is refreshed, and a
  failed refresh falls back to interactive sign-in. Sign-out and the current-user view are
  also covered;
- the `OAuth2CredentialProvider` adapter (`TokenCredential`) and
  `OAuth2ServiceClientFactory.CreateCredential`;
- the derived predicates of `DocTransAppSettings` (`UsingOAuth2`, `UsingKeyVault`,
  `UsingProxy`), `AppSettingsSetter.CheckSettings`, and the defaults `AppSettingsSetter.Read` applies.

Everything is a value. The authenticator is a record: settings, the MSAL application handle,
and the cached `AuthenticationResult`. Each operation is a pure function. It takes the
authenticator, the current time `now` in seconds, and a `Provider` record that scripts MSAL's
answers for that operation:

- the application builder's outcome;
- the account list, or a failure to list accounts;
- the answer to the refresh request, per account;
- the answer to the silent request, per account;
- the answer to the interactive request;
- the outcome of removing an account, per account.

Each operation returns the next authenticator together with `Ok(value)` or `Err(error)`.
C# exceptions are an `Error` datatype: `ArgumentNull`, `Argument(field)`, `InvalidOperation`,
`NullReference`, `MsalUiRequired`, `Msal(code)` and `OAuth2AuthError(inner)`. Null references
are `Option.None` (module `Nullable`).

Three helper modules hold what the source files share, and the other modules follow the source files:

| module | file |
|---|---|
| `Nullable` | helper: null references as `Option` |
| `Text` | helper: .NET string behaviour the code relies on: `char.IsWhiteSpace`, `Trim`, `IsNullOrEmpty`, `IsNullOrWhiteSpace`, `ToLowerInvariant` |
| `Failures` | helper: the exceptions |
| `CloudEnvironment` | helper: the alias table shared by both resolvers, plus reference readers that recover the cloud from an authority URL or a scope |
| `Settings` | `DocTransAppSettings.cs` and the `OAuth2Settings` class |
| `OAuth2Authentication` | `OAuth2Authentication.cs` |
| `OAuth2CredentialProvider` | `OAuth2CredentialProvider.cs` (adapter and factory) |
| `AppSettingsSetter` | `AppSettingsSetter.cs` |

Behaviour of the code worth knowing:

- A failed `SignOutAsync` leaves the cached result in place: the exception from `RemoveAsync`
  at OAuth2Authentication.cs:161 is thrown before line 165 clears the cache.
- A null `CloudEnvironment` is not defaulted by the authority resolver. Lower-casing it
  throws, and `Initialize` wraps that as an OAuth2 authentication error. Only the scope
  resolver maps null to Azure Government.
- `GetCurrentUser` always uses the username as the display name. No display name is ever
  read.

Other points:

- With the default `OAuth2Settings`, the authority is Azure Government but the scope list is
  the public cloud's. The scope the factory hands the adapter is stored but never used. The
  lemma `DefaultSettingsMixClouds` states this.
- In the model, the adapter's "now + 1 hour" expiry fallback never fires, because every
  acquired result is assumed to carry an account (see "Left out"). After a successful
  `GetAccessTokenAsync` a result is always cached, so `GetTokenAsync`'s contract reports the
  cached expiry. In the program, a result whose `Account` is null makes `GetCurrentUser`
  return null, and the fallback applies.

## Model

| member | source | states |
|---|---|---|
| `Settings.DefaultOAuth2Values` | DocumentTranslationService/OAuth2Authentication.cs:230-256 | the `OAuth2Settings` initialisers: redirect `http://localhost`, environment `AzureGovernment`, scope list holding the public-cloud `.default` scope, null ids |
| `OAuth2Authentication.ValidateSettings` | DocumentTranslationService/OAuth2Authentication.cs:197-207 | passes exactly when both ids have a non-white-space character and the scope list is non-null and non-empty; otherwise it fails on the client id first, then the tenant id, then the scopes, each with an argument error naming the setting |
| `OAuth2Authentication.New` | DocumentTranslationService/OAuth2Authentication.cs:19-23 | null settings give ArgumentNull; otherwise construction succeeds exactly for valid settings, and a refusal is exactly the argument error `ValidateSettings` raises; a new authenticator has no handle and no cache, and satisfies the state invariant |
| `OAuth2Authentication.ConstructionExamples` | DocumentTranslationService.Tests/OAuth2AuthenticationTests.cs:21-90 | the test cases: null settings, an empty client id, an empty tenant id and an empty scope list are refused with the matching error; populated ids are accepted, and the accepted authenticator initialises when the builder succeeds |
| `OAuth2Authentication.GetAuthorityUrl` | DocumentTranslationService/OAuth2Authentication.cs:212-224 | the lower-cased name is matched case-insensitively: government aliases give `login.microsoftonline.us`, china aliases `login.chinacloudapi.cn`, public aliases `login.microsoftonline.com`, anything else the `.us` authority, each followed by the tenant id |
| `OAuth2Authentication.AuthorityMatchesCloud` | DocumentTranslationService/OAuth2Authentication.cs:214-223 | the authority equals the reference classification's base plus the tenant id; reading the URL back gives that cloud; the URL ends in `/` plus the tenant id |
| `OAuth2Authentication.AuthorityCaseInsensitive` | DocumentTranslationService/OAuth2Authentication.cs:214 | names equal after lower-casing resolve to the same authority |
| `OAuth2Authentication.Initialize` | DocumentTranslationService/OAuth2Authentication.cs:28-47 | succeeds exactly when the cloud environment is non-null and the builder succeeds; a null environment gives an OAuth2 error wrapping NullReference, and a builder failure an OAuth2 error wrapping the builder's exception; on failure the state is unchanged and the error is wrapped; on success the handle carries the client id, the redirect URI and the authority of the classified cloud, and the cache is kept |
| `OAuth2Authentication.InitializeIdempotent` | DocumentTranslationService/OAuth2Authentication.cs:28-47 | initialising again after a success rebuilds the same handle |
| `OAuth2Authentication.AuthenticateInteractive` | DocumentTranslationService/OAuth2Authentication.cs:53-100 | without a handle, `Initialize` runs first and its failure is returned as is, with the state unchanged; an existing handle is kept. The call succeeds exactly when a handle exists or is built, the accounts are listed, and either the first account's silent request returns a token or (no account, or a silent UiRequired) the interactive request returns one. A success caches that token's result and returns its access token. Every failure is an OAuth2 authentication error wrapping its cause (the listing's exception, the first account's silent `Msal` error, or the interactive `UiRequired`/`Msal` error) and leaves the cache as it was |
| `OAuth2Authentication.SilentNeedsAccount` | DocumentTranslationService/OAuth2Authentication.cs:62-80 | with no account known, the silent answer has no influence on the outcome |
| `OAuth2Authentication.UiRequiredFallsThrough` | DocumentTranslationService/OAuth2Authentication.cs:66-88 | a silent UiRequired answer gives exactly the outcome of having no account, that is, interactive acquisition |
| `OAuth2Authentication.SilentErrorIsWrapped` | DocumentTranslationService/OAuth2Authentication.cs:68-94 | any other silent failure is returned wrapped, without trying interactive sign-in and without touching the state |
| `OAuth2Authentication.SilentAsksFirstAccount` | DocumentTranslationService/OAuth2Authentication.cs:62-71 | the silent request is made for the first listed account: answers for other accounts never change the outcome |
| `OAuth2Authentication.FindAccount` | DocumentTranslationService/OAuth2Authentication.cs:123 | `FirstOrDefault` by username: absent exactly when no account has the username; otherwise the first position holding it |
| `OAuth2Authentication.TryRefresh` | DocumentTranslationService/OAuth2Authentication.cs:119-141 | the refresh yields a result exactly when there is a handle, the accounts are listed, one has the cached username, and the silent request for that account returns a token, which is then the result; every failure is swallowed |
| `OAuth2Authentication.GetAccessToken` | DocumentTranslationService/OAuth2Authentication.cs:106-145 | with no cache it is the interactive procedure; with ExpiresOn > now + 5 minutes it returns the cached token with the state unchanged; otherwise a successful refresh replaces the cache and returns the new token, and any refresh failure falls back to the interactive procedure; an error is always the interactive procedure's; every success returns the cached token |
| `OAuth2Authentication.FreshTokenNeedsNoProvider` | DocumentTranslationService/OAuth2Authentication.cs:113-117 | while the cached token is fresh, the result is the same whatever the identity provider would answer, and the state is unchanged |
| `OAuth2Authentication.RefreshAsksCachedUser` | DocumentTranslationService/OAuth2Authentication.cs:122-128 | the refresh is requested for the account holding the cached username: answers for other accounts never change the outcome |
| `OAuth2Authentication.SignOut` | DocumentTranslationService/OAuth2Authentication.cs:150-173 | a no-op success without a handle or a cache; with both, it succeeds exactly when the accounts are listed and, if one matches the cached username, the removal of that account succeeds; success clears the cache and nothing else; failure wraps the listing's or the removal's error and leaves the state unchanged |
| `OAuth2Authentication.GetCurrentUser` | DocumentTranslationService/OAuth2Authentication.cs:179-192 | absent exactly when nothing is cached; otherwise username, tenant and expiry come from the cache and the name equals the username |
| `OAuth2Authentication.ApplyKeepsInvariant` | DocumentTranslationService/OAuth2Authentication.cs:53-173 | each public operation keeps valid settings and keeps "a cached result implies an initialised handle" |
| `OAuth2Authentication.RunKeepsInvariant` | DocumentTranslationService/OAuth2Authentication.cs:15-17 | the invariant holds after any sequence of calls and provider answers |
| `Text.TrimmedBlankIffWhiteSpace` | DocumentTranslationService/DocTransAppSettings.cs:88-89 | `IsNullOrEmpty(s?.Trim())` holds exactly when `IsNullOrWhiteSpace(s)` does, and both fail exactly when `s` has a non-white-space character |
| `Settings.UsingKeyVault` | DocumentTranslationService/DocTransAppSettings.cs:46-53 | holds exactly when the key vault name has a non-white-space character |
| `Settings.UsingProxy` | DocumentTranslationService/DocTransAppSettings.cs:54-62 | holds exactly when the proxy address has a non-white-space character |
| `Settings.UsingProxyIgnoresCredentialsFlag` | DocumentTranslationService/DocTransAppSettings.cs:58-60 | `ProxyUseDefaultCredentials` never changes `UsingProxy` |
| `Settings.UsingOAuth2` | DocumentTranslationService/DocTransAppSettings.cs:83-91 | holds exactly when the flag is set, the OAuth2 block is non-null, and both ids have a non-white-space character |
| `Settings.UsingOAuth2NeedsFlag` | DocumentTranslationService.Tests/OAuth2AuthenticationTests.cs:110-126 | with the flag off, `UsingOAuth2` is false whatever the ids hold |
| `OAuth2CredentialProvider.UsingOAuth2PassesIdChecks` | DocumentTranslationService/DocTransAppSettings.cs:87-89 | when `UsingOAuth2` holds, construction's client-id and tenant-id checks pass, and validation passes exactly when the scope list is non-empty |
| `OAuth2CredentialProvider.NewCredentialProvider` | DocumentTranslationService/OAuth2CredentialProvider.cs:18-22 | fails exactly for a null authenticator, with ArgumentNull; otherwise it keeps the authenticator and the given scope |
| `OAuth2CredentialProvider.NewCredentialProviderDefault` | DocumentTranslationService/OAuth2CredentialProvider.cs:18-22 | the constructor without a scope argument: fails exactly for a null authenticator; otherwise keeps the authenticator and a scope that reads back as Azure Government |
| `OAuth2CredentialProvider.GetTokenAsync` | DocumentTranslationService/OAuth2CredentialProvider.cs:27-46 | the adapter advances the authenticator exactly as `GetAccessTokenAsync` does; it succeeds exactly when that does, with the same token and the cached expiry; a failure is that error wrapped once more |
| `OAuth2CredentialProvider.TokenIgnoresScopes` | DocumentTranslationService/OAuth2CredentialProvider.cs:27-39 | the result does not depend on the requested scopes or on the stored default scope |
| `OAuth2CredentialProvider.AsyncErrorIsDoublyWrapped` | DocumentTranslationService/OAuth2CredentialProvider.cs:40-45 | every adapter failure has at least two OAuth2 authentication error layers |
| `OAuth2CredentialProvider.GetToken` | DocumentTranslationService/OAuth2CredentialProvider.cs:51-64 | same state and same successful result as the asynchronous path; a failure is the asynchronous error wrapped once more |
| `OAuth2CredentialProvider.SyncMatchesAsync` | DocumentTranslationService/OAuth2CredentialProvider.cs:51-64 | both paths succeed together with the same token and expiry; a synchronous failure is wrapped exactly one level deeper |
| `OAuth2CredentialProvider.GetDefaultScope` | DocumentTranslationService/OAuth2CredentialProvider.cs:89-98 | null gives the `.azure.us` scope; matching is on the lower-cased name: government aliases give `.azure.us`, china aliases `.azure.cn`, public aliases `.azure.com`, unknown names `.azure.us` |
| `OAuth2CredentialProvider.DefaultScopeMatchesCloud` | DocumentTranslationService/OAuth2CredentialProvider.cs:91-97 | the scope is the reference classification's scope and reads back as that cloud |
| `OAuth2CredentialProvider.DefaultScopeNamesConfiguredCloud` | DocumentTranslationService/OAuth2CredentialProvider.cs:91-96 | null included, the default scope reads back as the configured cloud (Government for null) |
| `OAuth2CredentialProvider.AuthorityAndScopeAgree` | DocumentTranslationService/OAuth2CredentialProvider.cs:91-97 | for every non-null name, the authority and the default scope pick the same cloud |
| `OAuth2CredentialProvider.CreateCredential` | DocumentTranslationService/OAuth2CredentialProvider.cs:75-84 | fails with InvalidOperation exactly when `UsingOAuth2` is false; otherwise succeeds exactly when the scope list is non-empty, and fails only with Argument("Scopes"); a credential wraps a fresh authenticator over the OAuth2 block and carries the scope of the configured cloud |
| `OAuth2CredentialProvider.DefaultScopeExamples` | DocumentTranslationService.Tests/OAuth2AuthenticationTests.cs:159-166 | the scope table on the test's names, including `unknown` giving the government scope |
| `OAuth2CredentialProvider.FactoryAcceptsConfiguredSettings` | DocumentTranslationService.Tests/OAuth2AuthenticationTests.cs:167-186 | settings with the flag on and populated ids give a credential, for every cloud name |
| `OAuth2CredentialProvider.FactoryRefusesWhenFlagOff` | DocumentTranslationService.Tests/OAuth2AuthenticationTests.cs:146-157 | with the flag off the factory fails with InvalidOperation whatever the OAuth2 block holds |
| `OAuth2CredentialProvider.DefaultSettingsMixClouds` | DocumentTranslationService/OAuth2Authentication.cs:250-255 | the default settings resolve to the Government authority while their scope list names the public cloud |
| `AppSettingsSetter.CheckSettings` | DocumentTranslationService/AppSettingsSetter.cs:122-142 | passes exactly when OAuth2 is in use or the key-based settings are complete; a missing key fails first, then a missing region; when storage is needed, a null connection-strings block then gives a null-reference failure, then a missing storage connection string, then a missing resource name fails, each with its own error |
| `AppSettingsSetter.OAuth2SkipsKeySettings` | DocumentTranslationService/AppSettingsSetter.cs:125-131 | with OAuth2 in use, the check passes whatever the key, region, connection strings and resource name hold |
| `AppSettingsSetter.TextOnlyIgnoresStorage` | DocumentTranslationService/AppSettingsSetter.cs:136-140 | the text-only check does not depend on the connection strings or the resource name |
| `AppSettingsSetter.FullCheckIsStricter` | DocumentTranslationService/AppSettingsSetter.cs:136-140 | settings that pass the full check pass the text-only check |
| `AppSettingsSetter.MissingFileDefaults` | DocumentTranslationService/AppSettingsSetter.cs:46-58 | the missing-file settings have OAuth2 off (so `UsingOAuth2` is false), region `global`, the default OAuth2 block, and no key vault or proxy; the check then fails on the subscription key |
| `AppSettingsSetter.Read` | DocumentTranslationService/AppSettingsSetter.cs:36-74 | a missing file gives the default settings; other read failures are rethrown; parsed settings come back unchanged except that an empty region becomes `global`; every success has a non-empty region |
| `AppSettingsSetter.ReadKeepsModes` | DocumentTranslationService/AppSettingsSetter.cs:72 | the region default changes none of `UsingOAuth2`, `UsingKeyVault` or `UsingProxy` |

## Left out

- MSAL itself: `PublicClientApplicationBuilder`, `GetAccountsAsync`, `AcquireTokenSilent`, `AcquireTokenInteractive` and `RemoveAsync` are scripted answers in a `Provider` record. Within one `GetAccessTokenAsync` call, both account listings give the same answer, and requests made for an account are answered by its username alone. Rebuilding the handle does not empty MSAL's account cache in the model.
- Results without an account: every acquired result is assumed to carry an account, so reading the username never dereferences null.
- The clock: `now` is an integer number of seconds, and one value serves both the expiry check and the adapter's one-hour fallback. Overflow of `AddMinutes`/`AddHours` near the maximum date is not modelled.
- async/await, `GetAwaiter().GetResult()`, cancellation tokens, locking and concurrent callers.
- `Debug.WriteLine` and `Console.WriteLine` logging, and exception message texts. Argument errors carry only the name of the setting involved.
- `ToLowerInvariant` is modelled for ASCII letters only. Non-ASCII case mappings that could turn into an ASCII alias are not modelled.
- Mutation of a shared `OAuth2Settings` object after construction: settings are immutable values here.
- Null `DocTransAppSettings` arguments to `CreateCredential` and `CheckSettings` are not modelled. Null elements inside the scope array are also not modelled, since only the array's length is ever read.
- `AppSettingsSetter.Read`: file access, `GetSettingsFilename`, JSON deserialisation (including JSON `null`), the key-vault log line and the `SettingsReadComplete` event are not modelled. `Read` takes what opening and parsing produced. `Write` and `GetJson` are not modelled either.
- The web front end (`auth.js`, the translation controller and page, `Program.cs`, `ConfigController.cs`, `run-doctr.py`) is not part of this model.
