/** The cloud-environment alias table shared by the authority resolver
    (`OAuth2Authentication.GetAuthorityUrl`) and the scope resolver
    (`OAuth2ServiceClientFactory.GetDefaultScope`), and the endpoints of each cloud. */
module CloudEnvironment {
  import opened Nullable
  import opened Text

  /** The sovereign clouds the resolvers distinguish. */
  datatype Cloud = Government | China | Public

  const GovernmentAliases: set<string> := {"azuregovernment", "government", "gov"}
  const ChinaAliases: set<string> := {"azurechina", "china"}
  const PublicAliases: set<string> := {"azurepublic", "public", "commercial"}

  const GovernmentAuthority := "https://login.microsoftonline.us/"
  const ChinaAuthority := "https://login.chinacloudapi.cn/"
  const PublicAuthority := "https://login.microsoftonline.com/"

  const GovernmentScope := "https://cognitiveservices.azure.us/.default"
  const ChinaScope := "https://cognitiveservices.azure.cn/.default"
  const PublicScope := "https://cognitiveservices.azure.com/.default"

  /** Reference classification: compare the lower-cased name against the alias sets;
      anything not named, including the empty string, is the Government cloud. */
  function Classify(env: string): Cloud
  {
    var e := ToLowerInvariant(env);
    if e in ChinaAliases then China
    else if e in PublicAliases then Public
    else Government
  }

  /** The login authority base (scheme, host and trailing slash) of a cloud. */
  function AuthorityBase(c: Cloud): string
  {
    match c
    case Government => GovernmentAuthority
    case China => ChinaAuthority
    case Public => PublicAuthority
  }

  /** The Cognitive Services `.default` scope of a cloud. */
  function ScopeOf(c: Cloud): string
  {
    match c
    case Government => GovernmentScope
    case China => ChinaScope
    case Public => PublicScope
  }

  /** Reads back which cloud an authority URL points at, by its prefix. */
  function AuthorityCloud(url: string): Option<Cloud>
  {
    if GovernmentAuthority <= url then Some(Government)
    else if ChinaAuthority <= url then Some(China)
    else if PublicAuthority <= url then Some(Public)
    else None
  }

  /** Reads back which cloud a scope belongs to. */
  function ScopeCloud(scope: string): Option<Cloud>
  {
    if scope == GovernmentScope then Some(Government)
    else if scope == ChinaScope then Some(China)
    else if scope == PublicScope then Some(Public)
    else None
  }

  /** Reading the cloud back from `AuthorityBase(c) + tenant` gives `c` whatever the tenant. */
  lemma AuthorityCloudRoundTrip(c: Cloud, tenant: string)
    ensures AuthorityCloud(AuthorityBase(c) + tenant) == Some(c)
  {
    var url := AuthorityBase(c) + tenant;
    assert AuthorityBase(c) <= url;
    match c {
      case Government =>
      case China =>
        assert url[14] == 'c' != GovernmentAuthority[14];
      case Public =>
        assert url[30] == 'c' != GovernmentAuthority[30];
        assert url[14] == 'm' != ChinaAuthority[14];
    }
  }

  /** Reading the cloud back from `ScopeOf(c)` gives `c`. */
  lemma ScopeCloudRoundTrip(c: Cloud)
    ensures ScopeCloud(ScopeOf(c)) == Some(c)
  {
  }
}
