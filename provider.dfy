/**
 * The provider's Configure: the nullable provider attributes are checked (a base URL, exactly
 * one authentication method, complete certificate pairs), defaulted, turned into a client
 * configuration carrying one credential variant, and handed to the client constructor.
 */
module Provider {
  import opened Wrappers
  import opened Retry
  import opened Client

  /** The provider block; None is a null attribute. */
  datatype ProviderConfig = ProviderConfig(
    apiUrl: Option<string>,
    apiToken: Option<string>,
    apiHeader: Option<string>,
    clientCert: Option<string>,
    clientKey: Option<string>,
    clientCertFile: Option<string>,
    clientKeyFile: Option<string>,
    pkcs12Bundle: Option<string>,
    pkcs12File: Option<string>,
    pkcs12Password: Option<string>,
    timeout: Option<int>,
    insecure: Option<bool>,
    retryAttempts: Option<int>,
    maxIdleConns: Option<int>)

  datatype ConfigureError =
    | MissingConfiguration                  // "Missing Configuration"
    | MissingAuthentication                 // "Missing Authentication"
    | MultipleAuthenticationMethods         // "Multiple Authentication Methods"
    | IncompleteCertificate(files: bool)    // "Incomplete Certificate Authentication", inline or file pair
    | ClientConfigurationError(cause: ClientError)   // "Client Configuration Error"

  predicate PemGiven(p: ProviderConfig) {
    p.clientCert.Some? && p.clientKey.Some?
  }

  predicate FilesGiven(p: ProviderConfig) {
    p.clientCertFile.Some? && p.clientKeyFile.Some?
  }

  predicate Pkcs12Given(p: ProviderConfig) {
    p.pkcs12Bundle.Some? || p.pkcs12File.Some?
  }

  /** Exactly one of the two halves is set. */
  predicate HalfSet(a: Option<string>, b: Option<string>) {
    a.Some? != b.Some?
  }

  /** The three authentication methods. */
  datatype AuthMethod = TokenMethod | CertificateMethod | Pkcs12Method

  /** The methods a configuration provides, as a set: the reference for the counter. */
  function MethodsGiven(p: ProviderConfig): set<AuthMethod> {
    (if p.apiToken.Some? then {TokenMethod} else {})
    + (if PemGiven(p) || FilesGiven(p) then {CertificateMethod} else {})
    + (if Pkcs12Given(p) then {Pkcs12Method} else {})
  }

  /** The authMethods counter as Configure computes it. */
  function AuthMethods(p: ProviderConfig): (n: nat)
    ensures n <= 3
  {
    (if p.apiToken.Some? then 1 else 0)
    + (if PemGiven(p) || FilesGiven(p) then 1 else 0)
    + (if Pkcs12Given(p) then 1 else 0)
  }

  /** The counter counts the methods given: complete certificate pairs count once together, PKCS12 once. */
  lemma AuthMethodsCountsMethods(p: ProviderConfig)
    ensures AuthMethods(p) == |MethodsGiven(p)|
  {
    var t: set<AuthMethod> := if p.apiToken.Some? then {TokenMethod} else {};
    var c: set<AuthMethod> := if PemGiven(p) || FilesGiven(p) then {CertificateMethod} else {};
    var k: set<AuthMethod> := if Pkcs12Given(p) then {Pkcs12Method} else {};
    assert t !! c && (t + c) !! k;
    assert |t + c| == |t| + |c|;
    assert |t + c + k| == |t + c| + |k|;
  }

  /**
   * The checks of Configure in their order; None when the configuration passes them all, that is
   * exactly when it has a URL, one method, and no pair with one half set.
   */
  function Validate(p: ProviderConfig): (r: Option<ConfigureError>)
    ensures r.Some? ==> !r.value.ClientConfigurationError?
    ensures r.None? <==>
              p.apiUrl.Some? && |MethodsGiven(p)| == 1
              && !HalfSet(p.clientCert, p.clientKey) && !HalfSet(p.clientCertFile, p.clientKeyFile)
    ensures p.apiUrl.Some? && |MethodsGiven(p)| == 0 ==> r == Some(MissingAuthentication)
    ensures p.apiUrl.Some? && |MethodsGiven(p)| > 1 ==> r == Some(MultipleAuthenticationMethods)
  {
    AuthMethodsCountsMethods(p);
    if p.apiUrl.None? then Some(MissingConfiguration)
    else if AuthMethods(p) == 0 then Some(MissingAuthentication)
    else if AuthMethods(p) > 1 then Some(MultipleAuthenticationMethods)
    else if HalfSet(p.clientCert, p.clientKey) then Some(IncompleteCertificate(false))
    else if HalfSet(p.clientCertFile, p.clientKeyFile) then Some(IncompleteCertificate(true))
    else None
  }

  /** A half-set pair is refused even beside exactly one complete method, the inline pair checked first. */
  lemma HalfPairRefused(p: ProviderConfig)
    requires p.apiUrl.Some? && |MethodsGiven(p)| == 1
    ensures HalfSet(p.clientCert, p.clientKey) ==> Validate(p) == Some(IncompleteCertificate(false))
    ensures !HalfSet(p.clientCert, p.clientKey) && HalfSet(p.clientCertFile, p.clientKeyFile)
            ==> Validate(p) == Some(IncompleteCertificate(true))
  {
    AuthMethodsCountsMethods(p);
  }

  /** The credential variants in the order Configure copies them. */
  datatype Variant = TokenAuth | InlinePem | PemFiles | InlinePkcs12 | Pkcs12FromFile | NoVariant

  function VariantOf(p: ProviderConfig): (v: Variant)
    ensures v == TokenAuth <==> p.apiToken.Some?
    ensures v == InlinePem <==> p.apiToken.None? && PemGiven(p)
    ensures v == PemFiles <==> p.apiToken.None? && !PemGiven(p) && FilesGiven(p)
    ensures v == InlinePkcs12 <==> p.apiToken.None? && !PemGiven(p) && !FilesGiven(p) && p.pkcs12Bundle.Some?
    ensures v == Pkcs12FromFile <==>
              p.apiToken.None? && !PemGiven(p) && !FilesGiven(p) && p.pkcs12Bundle.None? && p.pkcs12File.Some?
    ensures v == NoVariant <==> MethodsGiven(p) == {}
  {
    if p.apiToken.Some? then TokenAuth
    else if PemGiven(p) then InlinePem
    else if FilesGiven(p) then PemFiles
    else if p.pkcs12Bundle.Some? then InlinePkcs12
    else if p.pkcs12File.Some? then Pkcs12FromFile
    else NoVariant
  }

  /** A configuration that passes the checks has one variant: the one of its only method. */
  lemma ValidVariant(p: ProviderConfig)
    requires Validate(p).None?
    ensures VariantOf(p) != NoVariant
    ensures VariantOf(p) == TokenAuth <==> MethodsGiven(p) == {TokenMethod}
    ensures VariantOf(p) in {InlinePem, PemFiles} <==> MethodsGiven(p) == {CertificateMethod}
    ensures VariantOf(p) in {InlinePkcs12, Pkcs12FromFile} <==> MethodsGiven(p) == {Pkcs12Method}
  {
    AuthMethodsCountsMethods(p);
  }

  const DefaultProviderTimeout: int := 30
  const DefaultProviderRetries: int := 3
  const DefaultProviderMaxIdleConns: int := 100
  const DefaultApiHeader: string := "Authorization"

  /** The client.Config Configure builds: the defaults and the one credential variant. */
  function ClientConfigFor(p: ProviderConfig): (c: Config)
    ensures c.baseURL == p.apiUrl.GetOr("")
    ensures c.timeout == SecondsToDuration(p.timeout.GetOr(DefaultProviderTimeout))
    ensures c.retryAttempts == p.retryAttempts.GetOr(DefaultProviderRetries)
    ensures c.maxIdleConns == p.maxIdleConns.GetOr(DefaultProviderMaxIdleConns)
    ensures c.insecure == p.insecure.GetOr(false)
    ensures c.token == (if VariantOf(p) == TokenAuth then p.apiToken.value else "")
    ensures c.tokenHeader == (if VariantOf(p) == TokenAuth then p.apiHeader.GetOr(DefaultApiHeader) else "")
    ensures (c.clientCert, c.clientKey) ==
              (if VariantOf(p) == InlinePem then (p.clientCert.value, p.clientKey.value) else ("", ""))
    ensures (c.clientCertFile, c.clientKeyFile) ==
              (if VariantOf(p) == PemFiles then (p.clientCertFile.value, p.clientKeyFile.value) else ("", ""))
    ensures c.pkcs12Bundle == (if VariantOf(p) == InlinePkcs12 then p.pkcs12Bundle.value else "")
    ensures c.pkcs12File == (if VariantOf(p) == Pkcs12FromFile then p.pkcs12File.value else "")
    ensures c.pkcs12Password ==
              (if VariantOf(p) in {InlinePkcs12, Pkcs12FromFile} then p.pkcs12Password.GetOr("") else "")
    ensures c.customHeaders == map[] && c.userAgent == "" && c.idleConnTimeout == 0 && !c.disableKeepAlives
  {
    var v := VariantOf(p);
    var pkcs := v == InlinePkcs12 || v == Pkcs12FromFile;
    Config(
      p.apiUrl.GetOr(""),
      if v == TokenAuth then p.apiToken.value else "",
      if v == TokenAuth then p.apiHeader.GetOr(DefaultApiHeader) else "",
      if v == InlinePem then p.clientCert.value else "",
      if v == InlinePem then p.clientKey.value else "",
      if v == PemFiles then p.clientCertFile.value else "",
      if v == PemFiles then p.clientKeyFile.value else "",
      if v == InlinePkcs12 then p.pkcs12Bundle.value else "",
      if v == Pkcs12FromFile then p.pkcs12File.value else "",
      if pkcs && p.pkcs12Password.Some? then p.pkcs12Password.value else "",
      SecondsToDuration(p.timeout.GetOr(DefaultProviderTimeout)),
      p.insecure.GetOr(false),
      p.retryAttempts.GetOr(DefaultProviderRetries),
      map[],
      "",
      p.maxIdleConns.GetOr(DefaultProviderMaxIdleConns),
      0,
      false)
  }

  /** What Configure ends with: the client it stores for data sources and resources, or its error. */
  function ConfigureOutcome(p: ProviderConfig, d: Decoders): (r: Result<RestClient, ConfigureError>)
    ensures Validate(p).Some? ==> r == Err(Validate(p).value)
    ensures Validate(p).None? ==>
              (r.Ok? <==> ClientFor(ClientConfigFor(p), d).Ok?)
              && (r.Ok? ==> r.value == ClientFor(ClientConfigFor(p), d).value)
              && (r.Err? ==> r.error == ClientConfigurationError(ClientFor(ClientConfigFor(p), d).error))
  {
    match Validate(p)
    case Some(e) => Err(e)
    case None =>
      match ClientFor(ClientConfigFor(p), d)
      case Ok(client) => Ok(client)
      case Err(e) => Err(ClientConfigurationError(e))
  }

  /** A null api_url stops Configure before anything else, and no client is built. */
  lemma MissingUrlRefused(p: ProviderConfig, d: Decoders)
    requires p.apiUrl.None?
    ensures ConfigureOutcome(p, d) == Err(MissingConfiguration)
  {
  }

  /**
   * The copied variant is the one configureTLSAuth then selects, as long as its values are not
   * empty strings (an empty string counts as given here but as absent in the client).
   */
  lemma VariantReachesClient(p: ProviderConfig)
    requires Validate(p).None?
    ensures VariantOf(p) == TokenAuth ==> SelectBranch(ClientConfigFor(p)) == NoClientCert
    ensures VariantOf(p) == InlinePem && p.clientCert.value != "" && p.clientKey.value != ""
            ==> SelectBranch(ClientConfigFor(p)) == PemPair
    ensures VariantOf(p) == PemFiles && p.clientCertFile.value != "" && p.clientKeyFile.value != ""
            ==> SelectBranch(ClientConfigFor(p)) == FilePair
    ensures VariantOf(p) == InlinePkcs12 && p.pkcs12Bundle.value != ""
            ==> SelectBranch(ClientConfigFor(p)) == Pkcs12Bundle
    ensures VariantOf(p) == Pkcs12FromFile && p.pkcs12File.value != ""
            ==> SelectBranch(ClientConfigFor(p)) == Pkcs12File
    ensures VariantOf(p) == InlinePem && p.clientCert.value == "" ==> SelectBranch(ClientConfigFor(p)) == NoClientCert
  {
  }

  /** The pieces of provider.ConfigureResponse that Configure writes. */
  class ConfigureResponse {
    var diagnostics: seq<ConfigureError>
    var dataSourceData: Option<RestClient>
    var resourceData: Option<RestClient>

    constructor()
      ensures diagnostics == [] && dataSourceData.None? && resourceData.None?
    {
      diagnostics := [];
      dataSourceData := None;
      resourceData := None;
    }
  }

  /** Configure, step by step: the checks, the defaults, the variant, the client. */
  method Configure(p: ProviderConfig, d: Decoders, resp: ConfigureResponse)
    modifies resp
    ensures ConfigureOutcome(p, d).Err? ==>
              resp.diagnostics == old(resp.diagnostics) + [ConfigureOutcome(p, d).error]
              && resp.dataSourceData == old(resp.dataSourceData) && resp.resourceData == old(resp.resourceData)
    ensures ConfigureOutcome(p, d).Ok? ==>
              resp.diagnostics == old(resp.diagnostics)
              && resp.dataSourceData == Some(ConfigureOutcome(p, d).value)
              && resp.resourceData == resp.dataSourceData
  {
    if p.apiUrl.None? {
      resp.diagnostics := resp.diagnostics + [MissingConfiguration];
      return;
    }
    var authMethods := 0;
    if p.apiToken.Some? {
      authMethods := authMethods + 1;
    }
    if (p.clientCert.Some? && p.clientKey.Some?) || (p.clientCertFile.Some? && p.clientKeyFile.Some?) {
      authMethods := authMethods + 1;
    }
    if p.pkcs12Bundle.Some? || p.pkcs12File.Some? {
      authMethods := authMethods + 1;
    }
    assert authMethods == AuthMethods(p);
    if authMethods == 0 {
      resp.diagnostics := resp.diagnostics + [MissingAuthentication];
      return;
    }
    if authMethods > 1 {
      resp.diagnostics := resp.diagnostics + [MultipleAuthenticationMethods];
      return;
    }
    if (p.clientCert.Some? && p.clientKey.None?) || (p.clientCert.None? && p.clientKey.Some?) {
      resp.diagnostics := resp.diagnostics + [IncompleteCertificate(false)];
      return;
    }
    if (p.clientCertFile.Some? && p.clientKeyFile.None?) || (p.clientCertFile.None? && p.clientKeyFile.Some?) {
      resp.diagnostics := resp.diagnostics + [IncompleteCertificate(true)];
      return;
    }
    assert Validate(p).None?;

    var cfg := BuildClientConfig(p);

    var client := NewRestClient(cfg, d);
    if client.Err? {
      resp.diagnostics := resp.diagnostics + [ClientConfigurationError(client.error)];
      return;
    }
    resp.dataSourceData := Some(client.value);
    resp.resourceData := Some(client.value);
  }

  /** The defaults and the branch-by-branch copy of the one credential variant into client.Config. */
  method BuildClientConfig(p: ProviderConfig) returns (cfg: Config)
    ensures cfg == ClientConfigFor(p)
  {
    var timeout := SecondsToDuration(DefaultProviderTimeout);
    if p.timeout.Some? {
      timeout := SecondsToDuration(p.timeout.value);
    }
    var retryAttempts := DefaultProviderRetries;
    if p.retryAttempts.Some? {
      retryAttempts := p.retryAttempts.value;
    }
    var maxIdleConns := DefaultProviderMaxIdleConns;
    if p.maxIdleConns.Some? {
      maxIdleConns := p.maxIdleConns.value;
    }
    var apiHeader := DefaultApiHeader;
    if p.apiHeader.Some? {
      apiHeader := p.apiHeader.value;
    }
    var insecure := false;
    if p.insecure.Some? {
      insecure := p.insecure.value;
    }

    assert timeout == SecondsToDuration(p.timeout.GetOr(DefaultProviderTimeout));
    assert retryAttempts == p.retryAttempts.GetOr(DefaultProviderRetries);
    assert maxIdleConns == p.maxIdleConns.GetOr(DefaultProviderMaxIdleConns);
    assert apiHeader == p.apiHeader.GetOr(DefaultApiHeader);
    assert insecure == p.insecure.GetOr(false);
    cfg := Config(p.apiUrl.GetOr(""), "", "", "", "", "", "", "", "", "", timeout, insecure, retryAttempts,
                 map[], "", maxIdleConns, 0, false);
    if p.apiToken.Some? {
      cfg := cfg.(token := p.apiToken.value, tokenHeader := apiHeader);
      assert VariantOf(p) == TokenAuth;
    } else if p.clientCert.Some? && p.clientKey.Some? {
      cfg := cfg.(clientCert := p.clientCert.value, clientKey := p.clientKey.value);
      assert VariantOf(p) == InlinePem;
    } else if p.clientCertFile.Some? && p.clientKeyFile.Some? {
      cfg := cfg.(clientCertFile := p.clientCertFile.value, clientKeyFile := p.clientKeyFile.value);
      assert VariantOf(p) == PemFiles;
    } else if p.pkcs12Bundle.Some? {
      cfg := cfg.(pkcs12Bundle := p.pkcs12Bundle.value);
      if p.pkcs12Password.Some? {
        cfg := cfg.(pkcs12Password := p.pkcs12Password.value);
      }
    } else if p.pkcs12File.Some? {
      cfg := cfg.(pkcs12File := p.pkcs12File.value);
      if p.pkcs12Password.Some? {
        cfg := cfg.(pkcs12Password := p.pkcs12Password.value);
      }
    }
  }
}
