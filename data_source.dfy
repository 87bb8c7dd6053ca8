/**
 * The rest_data data source's Read: one request to the base URL followed by the endpoint,
 * sent again only while the transport fails, whose answer is recorded whatever its status
 * and whose body must be a JSON object, projected into a map of strings.
 */
module DataSource {
  import opened Wrappers
  import opened Utf8
  import opened Http
  import opened Json
  import opened Adapter

  /** The data source's attributes; None is a null attribute. */
  datatype DataSourceModel = DataSourceModel(
    id: Option<string>,
    endpoint: string,
    httpMethod: Option<string>,
    headers: map<string, Option<string>>,
    body: Option<string>,
    response: Option<Bytes>,
    statusCode: Option<int>,
    parsedData: Option<map<string, string>>,
    timeout: Option<int>,
    insecure: Option<bool>,
    retryAttempts: Option<int>)

  /** The method attribute, GET when it is null. */
  function ReadMethod(data: DataSourceModel): (m: string)
    ensures data.httpMethod.None? ==> m == "GET"
    ensures data.httpMethod.Some? ==> m == data.httpMethod.value
  {
    data.httpMethod.GetOr("GET")
  }

  /** The base URL and the endpoint, with nothing put between them. */
  function RequestURL(a: ApiAccess, data: DataSourceModel): (url: string)
    ensures |url| == |a.baseURL| + |data.endpoint|
    ensures url[..|a.baseURL|] == a.baseURL && url[|a.baseURL|..] == data.endpoint
  {
    a.baseURL + data.endpoint
  }

  /** The body goes out only when it is set and the method is exactly POST or PUT. */
  function RequestBody(data: DataSourceModel): (b: Option<Bytes>)
    ensures b.Some? <==> data.body.Some? && data.body.value != "" && ReadMethod(data) in {"POST", "PUT"}
    ensures b.Some? ==> b.value == Encode(data.body.value)
  {
    if data.body.Some? && (ReadMethod(data) == "POST" || ReadMethod(data) == "PUT") then BodyOf(data.body.value)
    else None
  }

  /** The headers attribute as the values Header.Set receives: a null value is the empty string. */
  function CustomHeaders(data: DataSourceModel): (h: map<string, string>)
    ensures h.Keys == data.headers.Keys
    ensures forall k :: k in h ==> h[k] == data.headers[k].GetOr("")
  {
    map k | k in data.headers :: data.headers[k].GetOr("")
  }

  /**
   * How Read ends once the send loop is over: the status is recorded before the body is read,
   * the id is the request URL, and the body must decode to a JSON object (or null).
   */
  function Completion(data: DataSourceModel, url: string, ex: Option<Exchange>, parse: Parser, format: Formatter)
    : (r: Result<DataSourceModel, OperationError>)
    ensures ex.None? ==> r == Err(NilResponse)
    ensures ex.Some? && ex.value.SendFailed? ==> r == Err(ClientError(ex.value.message))
    ensures ex.Some? && ex.value.Answered? && ex.value.body.Err? ==> r == Err(ReadError(ex.value.body.error))
    ensures ex.Some? && ex.value.Answered? && ex.value.body.Ok? ==>
              (r.Ok? <==> UnmarshalObject(parse(ex.value.body.value)).Some?)
              && (r.Err? ==> r.error == ParseError)
    ensures r.Ok? ==>
              ex.Some? && ex.value.Answered? && ex.value.body.Ok?
              && r.value == data.(statusCode := Some(ex.value.status), response := Some(ex.value.body.value),
                                  id := Some(url),
                                  parsedData := Some(ParsedData(UnmarshalObject(parse(ex.value.body.value)).value, format)))
  {
    match ex
    case None => Err(NilResponse)
    case Some(SendFailed(m)) => Err(ClientError(m))
    case Some(Answered(status, Err(m))) => Err(ReadError(m))
    case Some(Answered(status, Ok(b))) =>
      match UnmarshalObject(parse(b))
      case None => Err(ParseError)
      case Some(fields) =>
        Ok(data.(statusCode := Some(status), response := Some(b), id := Some(url),
                 parsedData := Some(ParsedData(fields, format))))
  }

  /**
   * Read: build the request, set the token header and Content-Type, then the custom headers
   * in map order, send it while the transport fails, and record what came back.
   */
  method Read(a: ApiAccess, data: DataSourceModel, send: Sender, parse: Parser, format: Formatter)
    returns (r: Result<DataSourceModel, OperationError>, sent: Option<Outgoing>, calls: nat)
    ensures RequestLine(ReadMethod(data), RequestURL(a, data)).Err? ==>
              r == Err(RequestCreationError(RequestLine(ReadMethod(data), RequestURL(a, data)).error))
              && sent.None? && calls == 0
    ensures RequestLine(ReadMethod(data), RequestURL(a, data)).Ok? ==>
              sent.Some?
              && (sent.value.verb, sent.value.url) == RequestLine(ReadMethod(data), RequestURL(a, data)).value
              && sent.value.body == RequestBody(data)
              && SetFrom(AuthHeaderMap(a.header, a.token, true), CustomHeaders(data), data.headers.Keys,
                         sent.value.header)
    ensures sent.Some? ==>
              var settings := SettingsFor(data.timeout, data.insecure);
              RetriedSend(send, settings, sent.value, AttemptsFor(data.retryAttempts), calls)
              && r == Completion(data, RequestURL(a, data), LastExchange(send, settings, sent.value, calls),
                                 parse, format)
  {
    var verb := "GET";
    if data.httpMethod.Some? {
      verb := data.httpMethod.value;
    }
    var url := a.baseURL + data.endpoint;
    var body: Option<Bytes> := None;
    if data.body.Some? && (verb == "POST" || verb == "PUT") {
      body := BodyOf(data.body.value);
    }
    var settings := SettingsFor(data.timeout, data.insecure);

    var req := NewAuthRequest(verb, url, body, a.header, a.token, true);
    if req.Err? {
      return Err(RequestCreationError(req.error)), None, 0;
    }
    req.value.SetAll(CustomHeaders(data));
    var out := req.value.Snapshot();
    sent := Some(out);

    var attempts := 1;
    if data.retryAttempts.Some? {
      attempts := data.retryAttempts.value;
    }
    var ex;
    ex, calls := SendWithRetry(send, settings, out, attempts);
    r := Record(data, url, ex, parse, format);
  }

  /** What Read makes of the exchange: the status first, then the body, its id and its parsed data. */
  method Record(data: DataSourceModel, url: string, ex: Option<Exchange>, parse: Parser, format: Formatter)
    returns (r: Result<DataSourceModel, OperationError>)
    ensures r == Completion(data, url, ex, parse, format)
  {
    match ex {
      case None =>
        r := Err(NilResponse);
      case Some(SendFailed(m)) =>
        r := Err(ClientError(m));
      case Some(Answered(status, content)) =>
        var model := data.(statusCode := Some(status));
        if content.Err? {
          r := Err(ReadError(content.error));
          return;
        }
        model := model.(response := Some(content.value), id := Some(url));
        var decoded := UnmarshalObject(parse(content.value));
        if decoded.None? {
          r := Err(ParseError);
          return;
        }
        var projected := Project(decoded.value, format);
        r := Ok(model.(parsedData := Some(projected)));
    }
  }

  /**
   * The custom headers are set last, so they override the token header and Content-Type;
   * what they do not override keeps its value.
   */
  lemma CustomHeadersOverride(a: ApiAccess, data: DataSourceModel, h: map<string, string>)
    requires SetFrom(AuthHeaderMap(a.header, a.token, true), CustomHeaders(data), data.headers.Keys, h)
    ensures h.Keys == {CanonicalHeaderKey(a.header), "Content-Type"} + CanonicalKeys(data.headers.Keys)
    ensures (forall k, k' :: k in data.headers && k' in data.headers && CanonicalHeaderKey(k) == CanonicalHeaderKey(k')
               ==> k == k')
            ==> forall k :: k in data.headers ==> h[CanonicalHeaderKey(k)] == data.headers[k].GetOr("")
    ensures "Content-Type" !in CanonicalKeys(data.headers.Keys) ==> h["Content-Type"] == "application/json"
    ensures CanonicalHeaderKey(a.header) != "Content-Type" && CanonicalHeaderKey(a.header) !in CanonicalKeys(data.headers.Keys)
            ==> h[CanonicalHeaderKey(a.header)] == a.token
  {
    var custom := CustomHeaders(data);
    if forall k, k' :: k in data.headers && k' in data.headers && CanonicalHeaderKey(k) == CanonicalHeaderKey(k') ==> k == k' {
      SetFromWins(AuthHeaderMap(a.header, a.token, true), custom, h);
    }
  }

  /** Any status is recorded as it came: Read makes no success check. */
  lemma AnyStatusRecorded(data: DataSourceModel, url: string, status: int, b: Bytes, parse: Parser, format: Formatter)
    requires parse(b).Some? && parse(b).value.JObject?
    ensures Completion(data, url, Some(Answered(status, Ok(b))), parse, format).Ok?
    ensures Completion(data, url, Some(Answered(status, Ok(b))), parse, format).value.statusCode == Some(status)
  {
  }
}
