/** `AppSettingsSetter`: the settings check run before translation, the defaults used when
    no settings file exists, and the region default applied after a successful read.
    Locating, reading, parsing and writing the file are outside this model. */
module AppSettingsSetter {
  import opened Nullable
  import opened Text
  import opened Failures
  import opened CloudEnvironment
  import opened Settings

  /** Key-based authentication is fully configured: a subscription key and a region, and,
      unless only text is translated, a storage connection string and a resource name. */
  predicate KeyBasedComplete(s: DocTransAppSettings, textOnly: bool)
  {
    && !IsNullOrEmpty(s.subscriptionKey)
    && !IsNullOrEmpty(s.azureRegion)
    && (textOnly ||
        (s.connectionStrings.Some?
         && !IsNullOrEmpty(s.connectionStrings.value.storageConnectionString)
         && !IsNullOrEmpty(s.azureResourceName)))
  }

  /** `CheckSettings`: OAuth2 in use settles it; otherwise the key-based settings are
      checked in order, each missing one failing with an argument error naming it. A
      missing connection-strings block is dereferenced when storage is needed. */
  function CheckSettings(s: DocTransAppSettings, textOnly: bool): (r: Outcome)
    ensures r.Pass? <==> UsingOAuth2(s) || KeyBasedComplete(s, textOnly)
    ensures !UsingOAuth2(s) && IsNullOrEmpty(s.subscriptionKey) ==> r == Fail(Argument("SubscriptionKey"))
    ensures !UsingOAuth2(s) && !IsNullOrEmpty(s.subscriptionKey) && IsNullOrEmpty(s.azureRegion) ==>
      r == Fail(Argument("AzureRegion"))
    ensures !UsingOAuth2(s) && !textOnly && !IsNullOrEmpty(s.subscriptionKey) && !IsNullOrEmpty(s.azureRegion) ==>
      r == if s.connectionStrings.None? then Fail(NullReference)
           else if IsNullOrEmpty(s.connectionStrings.value.storageConnectionString) then
             Fail(Argument("StorageConnectionString"))
           else if IsNullOrEmpty(s.azureResourceName) then Fail(Argument("AzureResourceName"))
           else Pass
    ensures r.Fail? ==>
      || r.error in {Argument("SubscriptionKey"), Argument("AzureRegion"),
                     Argument("StorageConnectionString"), Argument("AzureResourceName")}
      || (r.error == NullReference && !textOnly && s.connectionStrings.None?)
  {
    if UsingOAuth2(s) then
      if IsNullOrEmpty(s.oauth2.value.clientId) then Fail(Argument("OAuth2 ClientId"))
      else if IsNullOrEmpty(s.oauth2.value.tenantId) then Fail(Argument("OAuth2 TenantId"))
      else Pass
    else if IsNullOrEmpty(s.subscriptionKey) then Fail(Argument("SubscriptionKey"))
    else if IsNullOrEmpty(s.azureRegion) then Fail(Argument("AzureRegion"))
    else if !textOnly then
      if s.connectionStrings.None? then Fail(NullReference)
      else if IsNullOrEmpty(s.connectionStrings.value.storageConnectionString) then
        Fail(Argument("StorageConnectionString"))
      else if IsNullOrEmpty(s.azureResourceName) then Fail(Argument("AzureResourceName"))
      else Pass
    else Pass
  }

  /** With OAuth2 in use the key-based settings are never looked at. */
  lemma OAuth2SkipsKeySettings(s: DocTransAppSettings, textOnly: bool, key: Option<string>,
                               region: Option<string>, conn: Option<ConnectionStrings>,
                               resource: Option<string>)
    requires UsingOAuth2(s)
    ensures CheckSettings(s.(subscriptionKey := key, azureRegion := region,
                             connectionStrings := conn, azureResourceName := resource), textOnly) == Pass
  {
  }

  /** Text-only checking never needs storage or a resource name. */
  lemma TextOnlyIgnoresStorage(s: DocTransAppSettings, conn: Option<ConnectionStrings>, resource: Option<string>)
    ensures CheckSettings(s.(connectionStrings := conn, azureResourceName := resource), true)
         == CheckSettings(s, true)
  {
  }

  /** Settings that pass the full check also pass the text-only check. */
  lemma FullCheckIsStricter(s: DocTransAppSettings)
    requires CheckSettings(s, false).Pass?
    ensures CheckSettings(s, true).Pass?
  {
  }

  /** The settings `Read` returns when the file or its folder does not exist. */
  const MissingFileSettings: DocTransAppSettings := Unset.(
    connectionStrings := Some(ConnectionStrings(Some("DefaultEndpointsProtocol=https;AccountName=*"))),
    azureRegion := Some("global"),
    textTransEndpoint := Some("https://api.cognitive.microsofttranslator.com/"),
    azureResourceName := Some("https://*.cognitiveservices.azure.com/"),
    useOAuth2Authentication := false,
    oauth2 := Some(DefaultOAuth2))

  /** The missing-file settings: OAuth2 off, region `global`, a default OAuth2 block, no key
      vault or proxy, and nothing to authenticate with, so the check asks for a key. */
  lemma MissingFileDefaults(textOnly: bool)
    ensures !UsingOAuth2(MissingFileSettings)
    ensures MissingFileSettings.azureRegion == Some("global")
    ensures MissingFileSettings.oauth2 == Some(DefaultOAuth2)
    ensures !UsingKeyVault(MissingFileSettings) && !UsingProxy(MissingFileSettings)
    ensures CheckSettings(MissingFileSettings, textOnly) == Fail(Argument("SubscriptionKey"))
  {
  }

  /** What opening the settings file yields. */
  datatype SettingsFile =
    | Missing                              // file or directory not found
    | Unreadable(cause: Error)             // any other failure, rethrown
    | Parsed(settings: DocTransAppSettings)

  /** The outcome of `Read`, given what opening and parsing the file yielded. */
  function Read(file: SettingsFile): (r: Result<DocTransAppSettings>)
    ensures file.Missing? ==> r == Ok(MissingFileSettings)
    ensures file.Unreadable? ==> r == Err(file.cause)
    ensures file.Parsed? ==> r.Ok? && r.value == file.settings.(azureRegion := r.value.azureRegion)
    ensures file.Parsed? && !IsNullOrEmpty(file.settings.azureRegion) ==> r == Ok(file.settings)
    ensures file.Parsed? && IsNullOrEmpty(file.settings.azureRegion) ==>
      r == Ok(file.settings.(azureRegion := Some("global")))
    ensures r.Ok? ==> !IsNullOrEmpty(r.value.azureRegion)
  {
    match file
    case Missing => Ok(MissingFileSettings)
    case Unreadable(e) => Err(e)
    case Parsed(s) =>
      if IsNullOrEmpty(s.azureRegion) then Ok(s.(azureRegion := Some("global"))) else Ok(s)
  }

  /** Defaulting the region changes none of the derived predicates. */
  lemma ReadKeepsModes(s: DocTransAppSettings)
    ensures UsingOAuth2(Read(Parsed(s)).value) == UsingOAuth2(s)
    ensures UsingKeyVault(Read(Parsed(s)).value) == UsingKeyVault(s)
    ensures UsingProxy(Read(Parsed(s)).value) == UsingProxy(s)
  {
  }
}
