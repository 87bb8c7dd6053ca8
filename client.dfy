/**
 * The REST client: its configuration, the choice of client certificate, construction with
 * defaults and the default header map, URL building, header setting and Do, which ties the
 * request to the retry loop.
 */
module Client {
  import opened Wrappers
  import opened Text
  import opened Utf8
  import opened Urls
  import opened Http
  import opened Retry

  /** client.Config; durations are in nanoseconds. */
  datatype Config = Config(
    baseURL: string,
    token: string,
    tokenHeader: string,
    clientCert: string,
    clientKey: string,
    clientCertFile: string,
    clientKeyFile: string,
    pkcs12Bundle: string,
    pkcs12File: string,
    pkcs12Password: string,
    timeout: int,
    insecure: bool,
    retryAttempts: int,
    customHeaders: map<string, string>,
    userAgent: string,
    maxIdleConns: int,
    idleConnTimeout: int,
    disableKeepAlives: bool)

  // ----- client certificates -----

  /** A tls.Certificate: the DER chain and the private key, both left uninterpreted. */
  datatype Certificate = Certificate(chain: seq<Bytes>, privateKey: Bytes)

  /**
   * The library and file calls configureTLSAuth makes, each of which may fail:
   * tls.X509KeyPair, tls.LoadX509KeyPair, base64 decoding (section 4 of RFC 4648),
   * ioutil.ReadFile and parsePKCS12 (pkcs12.Decode, RFC 7292).
   */
  datatype Decoders = Decoders(
    x509KeyPair: (Bytes, Bytes) -> Option<Certificate>,
    loadX509KeyPair: (string, string) -> Option<Certificate>,
    base64Decode: string -> Option<Bytes>,
    readFile: string -> Option<Bytes>,
    parsePkcs12: (Bytes, string) -> Option<Certificate>)

  datatype TlsError =
    | BadKeyPair          // "failed to parse client certificate and key"
    | BadKeyPairFiles     // "failed to load client certificate files"
    | BadBase64Bundle     // "failed to decode PKCS12 bundle"
    | BadBundle           // "failed to parse PKCS12 bundle"
    | UnreadableFile      // "failed to read PKCS12 file"
    | BadFile             // "failed to parse PKCS12 file"

  /** The credential variants, in the order configureTLSAuth tries them. */
  datatype TlsBranch = PemPair | FilePair | Pkcs12Bundle | Pkcs12File | NoClientCert

  /** The first variant whose inputs are all set; a pair with one half missing is passed over. */
  function SelectBranch(c: Config): (b: TlsBranch)
    ensures b == PemPair <==> c.clientCert != "" && c.clientKey != ""
    ensures b == FilePair <==>
              !(c.clientCert != "" && c.clientKey != "") && c.clientCertFile != "" && c.clientKeyFile != ""
    ensures b == Pkcs12Bundle <==>
              !(c.clientCert != "" && c.clientKey != "") && !(c.clientCertFile != "" && c.clientKeyFile != "")
              && c.pkcs12Bundle != ""
    ensures b == Pkcs12File <==>
              !(c.clientCert != "" && c.clientKey != "") && !(c.clientCertFile != "" && c.clientKeyFile != "")
              && c.pkcs12Bundle == "" && c.pkcs12File != ""
    ensures b == NoClientCert <==>
              !(c.clientCert != "" && c.clientKey != "") && !(c.clientCertFile != "" && c.clientKeyFile != "")
              && c.pkcs12Bundle == "" && c.pkcs12File == ""
  {
    if c.clientCert != "" && c.clientKey != "" then PemPair
    else if c.clientCertFile != "" && c.clientKeyFile != "" then FilePair
    else if c.pkcs12Bundle != "" then Pkcs12Bundle
    else if c.pkcs12File != "" then Pkcs12File
    else NoClientCert
  }

  /** The certificate the selected variant yields, none when no variant applies, or why it failed. */
  function TlsAuth(c: Config, d: Decoders): (r: Result<Option<Certificate>, TlsError>)
    ensures SelectBranch(c) == NoClientCert <==> r == Ok(None)
    ensures SelectBranch(c) == PemPair ==>
              r == (match d.x509KeyPair(Encode(c.clientCert), Encode(c.clientKey))
                    case Some(cert) => Ok(Some(cert))
                    case None => Err(BadKeyPair))
    ensures SelectBranch(c) == FilePair ==>
              r == (match d.loadX509KeyPair(c.clientCertFile, c.clientKeyFile)
                    case Some(cert) => Ok(Some(cert))
                    case None => Err(BadKeyPairFiles))
    ensures SelectBranch(c) == Pkcs12Bundle ==>
              r == (match d.base64Decode(c.pkcs12Bundle)
                    case None => Err(BadBase64Bundle)
                    case Some(data) =>
                      if d.parsePkcs12(data, c.pkcs12Password).Some? then Ok(d.parsePkcs12(data, c.pkcs12Password))
                      else Err(BadBundle))
    ensures SelectBranch(c) == Pkcs12File ==>
              r == (match d.readFile(c.pkcs12File)
                    case None => Err(UnreadableFile)
                    case Some(data) =>
                      if d.parsePkcs12(data, c.pkcs12Password).Some? then Ok(d.parsePkcs12(data, c.pkcs12Password))
                      else Err(BadFile))
  {
    match SelectBranch(c)
    case PemPair =>
      (match d.x509KeyPair(Encode(c.clientCert), Encode(c.clientKey))
       case Some(cert) => Ok(Some(cert))
       case None => Err(BadKeyPair))
    case FilePair =>
      (match d.loadX509KeyPair(c.clientCertFile, c.clientKeyFile)
       case Some(cert) => Ok(Some(cert))
       case None => Err(BadKeyPairFiles))
    case Pkcs12Bundle =>
      (match d.base64Decode(c.pkcs12Bundle)
       case None => Err(BadBase64Bundle)
       case Some(data) =>
         match d.parsePkcs12(data, c.pkcs12Password)
         case Some(cert) => Ok(Some(cert))
         case None => Err(BadBundle))
    case Pkcs12File =>
      (match d.readFile(c.pkcs12File)
       case None => Err(UnreadableFile)
       case Some(data) =>
         match d.parsePkcs12(data, c.pkcs12Password)
         case Some(cert) => Ok(Some(cert))
         case None => Err(BadFile))
    case NoClientCert => Ok(None)
  }

  /** The tls.Config the client builds: verification switch and client certificates, set in place. */
  class TlsConfig {
    var insecureSkipVerify: bool
    var certificates: seq<Certificate>

    constructor(insecure: bool)
      ensures insecureSkipVerify == insecure && certificates == []
    {
      insecureSkipVerify := insecure;
      certificates := [];
    }
  }

  /** configureTLSAuth: on success the one certificate of the selected variant is installed; nothing else changes. */
  method ConfigureTlsAuth(c: Config, d: Decoders, tls: TlsConfig) returns (err: Option<TlsError>)
    modifies tls
    ensures err.Some? <==> TlsAuth(c, d).Err?
    ensures err.Some? ==> err.value == TlsAuth(c, d).error
    ensures tls.insecureSkipVerify == old(tls.insecureSkipVerify)
    ensures tls.certificates == (match TlsAuth(c, d)
                                 case Ok(Some(cert)) => [cert]
                                 case _ => old(tls.certificates))
  {
    if c.clientCert != "" && c.clientKey != "" {
      var cert := d.x509KeyPair(Encode(c.clientCert), Encode(c.clientKey));
      if cert.None? {
        return Some(BadKeyPair);
      }
      tls.certificates := [cert.value];
      return None;
    }
    if c.clientCertFile != "" && c.clientKeyFile != "" {
      var cert := d.loadX509KeyPair(c.clientCertFile, c.clientKeyFile);
      if cert.None? {
        return Some(BadKeyPairFiles);
      }
      tls.certificates := [cert.value];
      return None;
    }
    if c.pkcs12Bundle != "" {
      var data := d.base64Decode(c.pkcs12Bundle);
      if data.None? {
        return Some(BadBase64Bundle);
      }
      var cert := d.parsePkcs12(data.value, c.pkcs12Password);
      if cert.None? {
        return Some(BadBundle);
      }
      tls.certificates := [cert.value];
      return None;
    }
    if c.pkcs12File != "" {
      var data := d.readFile(c.pkcs12File);
      if data.None? {
        return Some(UnreadableFile);
      }
      var cert := d.parsePkcs12(data.value, c.pkcs12Password);
      if cert.None? {
        return Some(BadFile);
      }
      tls.certificates := [cert.value];
      return None;
    }
    return None;
  }

  /** Which variant runs is decided by the inputs of that variant and those before it only. */
  lemma TlsAuthFirstMatch(c: Config, d: Decoders, c': Config)
    requires c'.clientCert == c.clientCert && c'.clientKey == c.clientKey
    requires c'.clientCertFile == c.clientCertFile && c'.clientKeyFile == c.clientKeyFile
    requires c'.pkcs12Password == c.pkcs12Password
    requires SelectBranch(c) == PemPair || SelectBranch(c) == FilePair
    ensures SelectBranch(c') == SelectBranch(c) && TlsAuth(c', d) == TlsAuth(c, d)
  {
  }

  /**
   * A PKCS#12 input that is decoded but does not parse with the given password (a wrong
   * password, say) is an error, so no certificate is installed; the bundle and the file differ
   * only in the error they report.
   */
  lemma Pkcs12ParseFailureRefused(c: Config, d: Decoders)
    requires SelectBranch(c) == Pkcs12Bundle || SelectBranch(c) == Pkcs12File
    requires var data := if SelectBranch(c) == Pkcs12Bundle then d.base64Decode(c.pkcs12Bundle) else d.readFile(c.pkcs12File);
      data.Some? && d.parsePkcs12(data.value, c.pkcs12Password).None?
    ensures TlsAuth(c, d) == Err(if SelectBranch(c) == Pkcs12Bundle then BadBundle else BadFile)
  {
  }

  /**
   * A pair with a half empty is not an error: the next variant is tried, and with no complete
   * variant there is no certificate. Either pair may be half set, or both, or neither.
   */
  lemma HalfPairSkipped(c: Config, d: Decoders)
    requires c.clientCert == "" || c.clientKey == ""
    requires c.clientCertFile == "" || c.clientKeyFile == ""
    requires c.pkcs12Bundle == "" && c.pkcs12File == ""
    ensures TlsAuth(c, d) == Ok(None)
  {
  }

  // ----- construction -----

  const DefaultTimeout: int := 30 * Second
  const DefaultRetryAttempts: int := 3
  const DefaultUserAgent: string := "terraform-provider-rest/1.0"
  const DefaultMaxIdleConns: int := 100
  const DefaultIdleConnTimeout: int := 90 * Second
  const TlsHandshakeTimeout: int := 10 * Second

  /** The zero-valued settings replaced by their defaults, the rest kept. */
  function WithDefaults(c: Config): (r: Config)
    ensures r.timeout == (if c.timeout == 0 then DefaultTimeout else c.timeout)
    ensures r.retryAttempts == (if c.retryAttempts == 0 then DefaultRetryAttempts else c.retryAttempts)
    ensures r.userAgent == (if c.userAgent == "" then DefaultUserAgent else c.userAgent)
    ensures r.maxIdleConns == (if c.maxIdleConns == 0 then DefaultMaxIdleConns else c.maxIdleConns)
    ensures r.idleConnTimeout == (if c.idleConnTimeout == 0 then DefaultIdleConnTimeout else c.idleConnTimeout)
    ensures r.(timeout := c.timeout, retryAttempts := c.retryAttempts, userAgent := c.userAgent,
               maxIdleConns := c.maxIdleConns, idleConnTimeout := c.idleConnTimeout) == c
  {
    c.(timeout := if c.timeout == 0 then DefaultTimeout else c.timeout,
       retryAttempts := if c.retryAttempts == 0 then DefaultRetryAttempts else c.retryAttempts,
       userAgent := if c.userAgent == "" then DefaultUserAgent else c.userAgent,
       maxIdleConns := if c.maxIdleConns == 0 then DefaultMaxIdleConns else c.maxIdleConns,
       idleConnTimeout := if c.idleConnTimeout == 0 then DefaultIdleConnTimeout else c.idleConnTimeout)
  }

  /** Applying the defaults twice changes nothing more, and no default is zero. */
  lemma WithDefaultsIdempotent(c: Config)
    ensures WithDefaults(WithDefaults(c)) == WithDefaults(c)
    ensures WithDefaults(c).timeout != 0 && WithDefaults(c).retryAttempts != 0 && WithDefaults(c).userAgent != ""
  {
  }

  /** User-Agent, Accept and Content-Type, and the token under its header when both are given. */
  function BaseHeaders(c: Config): map<string, string> {
    var base := map["User-Agent" := c.userAgent, "Accept" := "application/json", "Content-Type" := "application/json"];
    if c.token != "" && c.tokenHeader != "" then base[c.tokenHeader := c.token] else base
  }

  /**
   * The client's header map: the three defaults and the token, then every custom header
   * over them. The map is a plain Go map, so its keys are kept as written.
   */
  function DefaultHeaders(c: Config): (h: map<string, string>)
    ensures h.Keys == {"User-Agent", "Accept", "Content-Type"} + c.customHeaders.Keys
                      + (if c.token != "" && c.tokenHeader != "" then {c.tokenHeader} else {})
    ensures forall k :: k in c.customHeaders ==> h[k] == c.customHeaders[k]
    ensures c.token != "" && c.tokenHeader != "" && c.tokenHeader !in c.customHeaders ==> h[c.tokenHeader] == c.token
    ensures "Accept" !in c.customHeaders && !(c.token != "" && c.tokenHeader == "Accept") ==> h["Accept"] == "application/json"
    ensures "Content-Type" !in c.customHeaders && !(c.token != "" && c.tokenHeader == "Content-Type") ==>
              h["Content-Type"] == "application/json"
    ensures "User-Agent" !in c.customHeaders && !(c.token != "" && c.tokenHeader == "User-Agent") ==>
              h["User-Agent"] == c.userAgent
  {
    BaseHeaders(c) + c.customHeaders
  }

  /** The settings of the http.Client and http.Transport the constructor makes. */
  datatype HttpSettings = HttpSettings(
    timeout: int,
    maxIdleConns: int,
    idleConnTimeout: int,
    disableKeepAlives: bool,
    tlsHandshakeTimeout: int,
    insecureSkipVerify: bool,
    certificates: seq<Certificate>)

  datatype RestClient = RestClient(
    baseURL: string,
    http: HttpSettings,
    headers: map<string, string>,
    timeout: int,
    retries: int,
    userAgent: string)

  datatype ClientError =
    | MissingBaseUrl              // "base URL is required"
    | InvalidBaseUrl(UrlError)    // "invalid base URL: ..."
    | MissingScheme               // "base URL must include a scheme (http or https)"
    | TlsFailed(TlsError)         // "failed to configure TLS authentication: ..."

  /** A base URL the constructor accepts: non-empty, parsing, and with a scheme. */
  predicate UsableBaseUrl(baseURL: string) {
    baseURL != "" && ParseUrl(baseURL).Ok? && ParseUrl(baseURL).value.scheme != ""
  }

  /** What NewRestClient returns for a configuration. */
  function ClientFor(c: Config, d: Decoders): (r: Result<RestClient, ClientError>)
    ensures r.Ok? <==> UsableBaseUrl(c.baseURL) && TlsAuth(WithDefaults(c), d).Ok?
    ensures UsableBaseUrl(c.baseURL) && TlsAuth(WithDefaults(c), d).Err? ==>
              r == Err(TlsFailed(TlsAuth(WithDefaults(c), d).error))
    ensures r.Ok? ==> r.value.http.certificates == (match TlsAuth(WithDefaults(c), d).value
                                                    case Some(cert) => [cert]
                                                    case None => [])
  {
    if c.baseURL == "" then Err(MissingBaseUrl)
    else
      match ParseUrl(c.baseURL)
      case Err(e) => Err(InvalidBaseUrl(e))
      case Ok(u) =>
        if u.scheme == "" then Err(MissingScheme)
        else
          var cfg := WithDefaults(c);
          match TlsAuth(cfg, d)
          case Err(e) => Err(TlsFailed(e))
          case Ok(cert) =>
            var settings := HttpSettings(cfg.timeout, cfg.maxIdleConns, cfg.idleConnTimeout, cfg.disableKeepAlives,
                                         TlsHandshakeTimeout, cfg.insecure,
                                         if cert.Some? then [cert.value] else []);
            Ok(RestClient(TrimRight(c.baseURL, '/'), settings, DefaultHeaders(cfg), cfg.timeout, cfg.retryAttempts,
                          cfg.userAgent))
  }

  /**
   * NewRestClient: validate the base URL, apply the defaults, build the transport with its
   * TLS settings and fill the header map, custom headers last.
   */
  method NewRestClient(config: Config, d: Decoders) returns (r: Result<RestClient, ClientError>)
    ensures r == ClientFor(config, d)
  {
    if config.baseURL == "" {
      return Err(MissingBaseUrl);
    }
    var parsed := ParseUrl(config.baseURL);
    if parsed.Err? {
      return Err(InvalidBaseUrl(parsed.error));
    }
    if parsed.value.scheme == "" {
      return Err(MissingScheme);
    }
    var cfg := config;
    if cfg.timeout == 0 { cfg := cfg.(timeout := DefaultTimeout); }
    if cfg.retryAttempts == 0 { cfg := cfg.(retryAttempts := DefaultRetryAttempts); }
    if cfg.userAgent == "" { cfg := cfg.(userAgent := DefaultUserAgent); }
    if cfg.maxIdleConns == 0 { cfg := cfg.(maxIdleConns := DefaultMaxIdleConns); }
    if cfg.idleConnTimeout == 0 { cfg := cfg.(idleConnTimeout := DefaultIdleConnTimeout); }
    assert cfg == WithDefaults(config);

    var tls := new TlsConfig(cfg.insecure);
    var err := ConfigureTlsAuth(cfg, d, tls);
    if err.Some? {
      return Err(TlsFailed(err.value));
    }
    var settings := HttpSettings(cfg.timeout, cfg.maxIdleConns, cfg.idleConnTimeout, cfg.disableKeepAlives,
                                 TlsHandshakeTimeout, tls.insecureSkipVerify, tls.certificates);
    var headers := FillHeaders(cfg);
    r := Ok(RestClient(TrimRight(config.baseURL, '/'), settings, headers, cfg.timeout, cfg.retryAttempts,
                       cfg.userAgent));
  }

  /** The header map of NewRestClient: the defaults, the token, then the custom headers. */
  method FillHeaders(cfg: Config) returns (headers: map<string, string>)
    ensures headers == DefaultHeaders(cfg)
  {
    headers := map["User-Agent" := cfg.userAgent, "Accept" := "application/json", "Content-Type" := "application/json"];
    if cfg.token != "" && cfg.tokenHeader != "" {
      headers := headers[cfg.tokenHeader := cfg.token];
    }
    headers := AssignAll(headers, cfg.customHeaders);
  }

  /** `for k, v := range m { headers[k] = v }`: plain assignment, so the order does not matter. */
  method AssignAll(headers: map<string, string>, m: map<string, string>) returns (r: map<string, string>)
    ensures r == headers + m
  {
    r := headers;
    var todo := m.Keys;
    while todo != {}
      invariant todo <= m.Keys
      invariant r.Keys == headers.Keys + (m.Keys - todo)
      invariant forall k :: k in r ==> r[k] == if k in m.Keys - todo then m[k] else headers[k]
      decreases |todo|
    {
      var k :| k in todo;
      r := r[k := m[k]];
      todo := todo - {k};
    }
  }

  /** An empty base URL is refused. */
  lemma EmptyBaseUrlRefused(c: Config, d: Decoders)
    requires c.baseURL == ""
    ensures ClientFor(c, d) == Err(MissingBaseUrl)
  {
  }

  /** A base URL without a scheme, such as "not-a-url", is refused. */
  lemma SchemelessBaseUrlRefused(c: Config, d: Decoders)
    requires c.baseURL == "not-a-url"
    ensures ClientFor(c, d) == Err(MissingScheme)
  {
    var u := c.baseURL;
    assert '#' !in u && ':' !in u;
    assert !HasControl(u);
    NoColonNoScheme(u);
  }

  /** A client that was built has the defaults in place of zero settings and a base URL without trailing '/'. */
  lemma BuiltClientDefaults(c: Config, d: Decoders)
    requires ClientFor(c, d).Ok?
    ensures var rc := ClientFor(c, d).value;
      && rc.timeout == (if c.timeout == 0 then 30 * Second else c.timeout)
      && rc.retries == (if c.retryAttempts == 0 then 3 else c.retryAttempts)
      && rc.userAgent == (if c.userAgent == "" then "terraform-provider-rest/1.0" else c.userAgent)
      && rc.http.maxIdleConns == (if c.maxIdleConns == 0 then 100 else c.maxIdleConns)
      && rc.http.idleConnTimeout == (if c.idleConnTimeout == 0 then 90 * Second else c.idleConnTimeout)
      && rc.http.timeout == rc.timeout
      && rc.http.insecureSkipVerify == c.insecure
      && rc.http.disableKeepAlives == c.disableKeepAlives
      && rc.http.tlsHandshakeTimeout == 10 * Second
      && IsPrefix(rc.baseURL, c.baseURL)
      && (rc.baseURL != "" ==> rc.baseURL[|rc.baseURL| - 1] != '/')
      && rc.headers == DefaultHeaders(WithDefaults(c))
  {
  }

  // ----- requests -----

  /** RequestOptions; a body of None is a nil slice, durations are in nanoseconds. */
  datatype RequestOptions = RequestOptions(
    verb: string,
    endpoint: string,
    body: Option<Bytes>,
    headers: map<string, string>,
    queryParams: map<string, string>,
    timeout: int,
    retries: int)

  /** The timeout and the attempt count of one call: the options' own when positive, else the client's. */
  function Overrides(client: RestClient, options: RequestOptions): (r: (int, int))
    ensures options.timeout > 0 ==> r.0 == options.timeout
    ensures options.timeout <= 0 ==> r.0 == client.timeout
    ensures options.retries > 0 ==> r.1 == options.retries
    ensures options.retries <= 0 ==> r.1 == client.retries
  {
    (if options.timeout > 0 then options.timeout else client.timeout,
     if options.retries > 0 then options.retries else client.retries)
  }

  /** buildURL: the endpoint without one leading '/' after the base and a '/', with the parameters added to its query. */
  function BuildURL(client: RestClient, endpoint: string, queryParams: map<string, string>): (r: Result<string, UrlError>)
    ensures r.Err? <==> ParseUrl(client.baseURL + "/" + TrimPrefix(endpoint, "/")).Err?
  {
    var full := client.baseURL + "/" + TrimPrefix(endpoint, "/");
    match ParseUrl(full)
    case Err(e) => Err(e)
    case Ok(u) =>
      if |queryParams| > 0 then
        Ok(UrlString(u.(rawQuery := EncodeValues(AddParams(Query(u.rawQuery), queryParams)))))
      else Ok(UrlString(u))
  }

  /** Without parameters the URL is the joined text itself, when it prints back as it parsed. */
  lemma BuildURLNoParams(client: RestClient, endpoint: string)
    requires var full := client.baseURL + "/" + TrimPrefix(endpoint, "/");
      && ParseUrl(full).Ok? && FragmentNonEmptyIfPresent(full)
      && var s := GetScheme(Cut(full, '#').0); s.Ok? && ToLower(s.value.0) == s.value.0
    ensures BuildURL(client, endpoint, map[]) == Ok(client.baseURL + "/" + TrimPrefix(endpoint, "/"))
  {
    ParsePrintRoundTrip(client.baseURL + "/" + TrimPrefix(endpoint, "/"));
  }

  lemma ContainsInMiddle(a: string, b: string, c: string, x: string)
    requires Contains(b, x)
    ensures Contains(a + b + c, x)
  {
    ContainsIffOccurs(b, x);
    var i :| OccursAt(b, x, i);
    var s := a + b + c;
    assert s[|a| + i..|a| + i + |x|] == b[i..i + |x|];
    OccursThenContains(s, x, |a| + i);
  }

  /** A non-empty query set on a URL is printed after a '?', with whatever it contains. */
  lemma QueryPrinted(u: Url, q: string, item: string)
    requires |item| > 0 && Contains(q, item)
    ensures var url := UrlString(u.(rawQuery := q)); Contains(url, "?") && Contains(url, item)
  {
    var head := (if u.scheme != "" then u.scheme + ":" else "") + u.rest;
    var tail := if u.fragment != "" then "#" + u.fragment else "";
    assert UrlString(u.(rawQuery := q)) == head + ("?" + q) + tail;
    MarkedQueryContains(q, item);
    ContainsInMiddle(head, "?" + q, tail, item);
    ContainsInMiddle(head, "?" + q, tail, "?");
  }

  /** A query written after its '?' contains the '?' and every item the query contains. */
  lemma MarkedQueryContains(q: string, item: string)
    requires |item| > 0 && Contains(q, item)
    ensures Contains("?" + q, item) && Contains("?" + q, "?")
  {
    ContainsIffOccurs(q, item);
    var i :| OccursAt(q, item, i);
    var mid := "?" + q;
    assert OccursAt(mid, item, i + 1) by {
      assert mid[i + 1..i + 1 + |item|] == q[i..i + |item|];
    }
    OccursThenContains(mid, item, i + 1);
    assert OccursAt(mid, "?", 0);
    OccursThenContains(mid, "?", 0);
  }

  /** With parameters the URL has a query, and every parameter is written into it as key=value, both escaped. */
  lemma BuildURLHasParams(client: RestClient, endpoint: string, queryParams: map<string, string>, k: string)
    requires |queryParams| > 0 && k in queryParams
    requires BuildURL(client, endpoint, queryParams).Ok?
    ensures var url := BuildURL(client, endpoint, queryParams).value;
      Contains(url, "?") && Contains(url, QueryEscape(Encode(k)) + "=" + QueryEscape(Encode(queryParams[k])))
  {
    var u := ParseUrl(client.baseURL + "/" + TrimPrefix(endpoint, "/")).value;
    var v := AddParams(Query(u.rawQuery), queryParams);
    var x := Encode(queryParams[k]);
    AddParamsHasValue(Query(u.rawQuery), queryParams, k);
    EncodeHasPair(v, Encode(k), x);
    QueryPrinted(u, EncodeValues(v), QueryEscape(Encode(k)) + "=" + QueryEscape(x));
  }

  /** Letters, digits and "-_.~" in keys and values come out as written, so "limit=10" is found as such. */
  lemma BuildURLPlainParam(client: RestClient, endpoint: string, queryParams: map<string, string>, k: string)
    requires |queryParams| > 0 && k in queryParams
    requires BuildURL(client, endpoint, queryParams).Ok?
    requires IsAscii(k) && forall i :: 0 <= i < |k| ==> IsUnreserved(k[i] as int as byte)
    requires IsAscii(queryParams[k]) && forall i :: 0 <= i < |queryParams[k]| ==> IsUnreserved(queryParams[k][i] as int as byte)
    ensures Contains(BuildURL(client, endpoint, queryParams).value, k + "=" + queryParams[k])
  {
    BuildURLHasParams(client, endpoint, queryParams, k);
    QueryEscapeUnreserved(k);
    QueryEscapeUnreserved(queryParams[k]);
  }

  /** The header a request has after setHeaders: the client's headers, then the per-call ones, set one by one. */
  ghost predicate HeadersSet(before: map<string, string>, client: RestClient, custom: map<string, string>,
                             after: map<string, string>)
  {
    exists mid :: SetFrom(before, client.headers, client.headers.Keys, mid) && SetFrom(mid, custom, custom.Keys, after)
  }

  /** setHeaders: every header of the client, then every header of the call, through Header.Set. */
  method SetHeaders(client: RestClient, req: Request, custom: map<string, string>)
    modifies req
    ensures HeadersSet(old(req.header), client, custom, req.header)
  {
    req.SetAll(client.headers);
    ghost var mid := req.header;
    req.SetAll(custom);
    assert SetFrom(mid, custom, custom.Keys, req.header);
  }

  datatype DoError =
    | BuildUrlFailed(UrlError)             // "failed to build URL: ..."
    | CreateRequestFailed(RequestError)    // "failed to create request: ..."
    | Failed(ExecError)                    // the error of executeWithRetry

  function DoResult(r: Result<Response, ExecError>): Result<Response, DoError> {
    match r
    case Ok(resp) => Ok(resp)
    case Err(e) => Err(Failed(e))
  }

  /**
   * Do: build the URL, make the request, set the headers, resolve the overrides and run the
   * retry loop. `sent` is the request as the transport sees it, when one was made.
   */
  method Do(client: RestClient, options: RequestOptions, send: Transport)
    returns (r: Result<Response, DoError>, sent: Option<Outgoing>, calls: nat, waits: seq<int>)
    ensures BuildURL(client, options.endpoint, options.queryParams).Err? ==>
              r == Err(BuildUrlFailed(BuildURL(client, options.endpoint, options.queryParams).error)) && calls == 0
    ensures BuildURL(client, options.endpoint, options.queryParams).Ok? &&
            RequestLine(options.verb, BuildURL(client, options.endpoint, options.queryParams).value).Err? ==>
              r == Err(CreateRequestFailed(RequestLine(options.verb, BuildURL(client, options.endpoint, options.queryParams).value).error))
              && calls == 0
    ensures sent.None? <==> r.Err? && !r.error.Failed?
    ensures sent.Some? ==>
              var url := BuildURL(client, options.endpoint, options.queryParams).value;
              && RequestLine(options.verb, url) == Ok((sent.value.verb, sent.value.url))
              && sent.value.body == SentBody(options.body)
              && HeadersSet(map[], client, options.headers, sent.value.header)
              && var (timeout, retries) := Overrides(client, options);
                 var t := Run(send, sent.value, retries, timeout, 0, None);
                 r == DoResult(t.result) && calls == t.calls && waits == t.waits
  {
    var url := BuildURL(client, options.endpoint, options.queryParams);
    if url.Err? {
      return Err(BuildUrlFailed(url.error)), None, 0, [];
    }
    var made := NewRequest(options.verb, url.value, options.body);
    if made.Err? {
      return Err(CreateRequestFailed(made.error)), None, 0, [];
    }
    var req := made.value;
    SetHeaders(client, req, options.headers);
    var timeout := client.timeout;
    if options.timeout > 0 {
      timeout := options.timeout;
    }
    var retries := client.retries;
    if options.retries > 0 {
      retries := options.retries;
    }
    var out := req.Snapshot();
    var result;
    result, calls, waits := ExecuteWithRetry(send, out, retries, timeout);
    r := DoResult(result);
    sent := Some(out);
  }
}
