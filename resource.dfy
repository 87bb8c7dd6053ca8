/**
 * The rest_resource resource: Create posts to the base URL followed by the endpoint, Read, Update
 * and Delete address the item under it by name. Each sends again only while the transport
 * fails, accepts its own status codes and reports anything else as an API error.
 */
module Resource {
  import opened Wrappers
  import opened Utf8
  import opened Urls
  import opened Http
  import opened Json
  import opened Adapter

  /** The resource's attributes; None is a null attribute. */
  datatype ResourceModel = ResourceModel(
    id: Option<string>,
    endpoint: string,
    name: string,
    response: Option<Bytes>,
    statusCode: Option<int>,
    body: Option<string>,
    destroyBody: Option<string>,
    timeout: Option<int>,
    insecure: Option<bool>,
    retryAttempts: Option<int>)

  datatype Operation = CreateOp | ReadOp | UpdateOp | DeleteOp

  /** The fixed method of each operation. */
  function MethodOf(op: Operation): (m: string)
    ensures ValidMethod(m)
    ensures m == "GET" <==> op == ReadOp
  {
    match op
    case CreateOp => "POST"
    case ReadOp => "GET"
    case UpdateOp => "PUT"
    case DeleteOp => "DELETE"
  }

  /** Create targets the collection; the other operations the item named by `name`. */
  function OperationURL(a: ApiAccess, data: ResourceModel, op: Operation): (url: string)
    ensures op == CreateOp ==> url == a.baseURL + data.endpoint
    ensures op != CreateOp ==> url == a.baseURL + data.endpoint + "/" + data.name
  {
    if op == CreateOp then a.baseURL + data.endpoint else a.baseURL + data.endpoint + "/" + data.name
  }

  /** The status codes each operation accepts. */
  function Accepted(op: Operation): (s: set<int>)
    ensures 200 in s && s <= {200, 201, 204}
    ensures 201 in s <==> op == CreateOp
    ensures 204 in s <==> op == DeleteOp
  {
    match op
    case CreateOp => {200, 201}
    case ReadOp => {200}
    case UpdateOp => {200}
    case DeleteOp => {200, 204}
  }

  /** A body attribute that is null or empty is sent as the empty JSON object. */
  function BodyOrEmptyObject(body: Option<string>): (text: string)
    ensures text != ""
    ensures body.None? || body.value == "" ==> text == "{}"
    ensures body.Some? && body.value != "" ==> text == body.value
  {
    var given := body.GetOr("");
    if given == "" then "{}" else given
  }

  /** What each operation sends: Read sends no body, the others the body or "{}"; Delete uses destroy_body. */
  function OperationBody(data: ResourceModel, op: Operation): (b: Option<Bytes>)
    ensures op == ReadOp <==> b.None?
    ensures op in {CreateOp, UpdateOp} ==> b == Some(Encode(BodyOrEmptyObject(data.body)))
    ensures op == DeleteOp ==> b == Some(Encode(BodyOrEmptyObject(data.destroyBody)))
  {
    match op
    case ReadOp => None
    case DeleteOp => BodyOf(BodyOrEmptyObject(data.destroyBody))
    case _ => BodyOf(BodyOrEmptyObject(data.body))
  }

  /** The request line of an operation, as http.NewRequest checks it. */
  function OperationLine(a: ApiAccess, data: ResourceModel, op: Operation): Result<(string, Url), RequestError> {
    RequestLine(MethodOf(op), OperationURL(a, data, op))
  }

  /** The request an operation sends once it could be made: Content-Type is set everywhere but on Read. */
  ghost predicate SentAs(a: ApiAccess, data: ResourceModel, op: Operation, sent: Outgoing) {
    && OperationLine(a, data, op).Ok?
    && sent == Outgoing(OperationLine(a, data, op).value.0, OperationLine(a, data, op).value.1,
                        OperationBody(data, op), AuthHeaderMap(a.header, a.token, op != ReadOp))
  }

  /**
   * How an operation ends once its send loop is over. Create reads the body before it checks the
   * status; Read and Update check the status first; Delete never reads the body. Only Create
   * and Read, Update keep state; Delete's success is its status.
   */
  function Completion(data: ResourceModel, url: string, op: Operation, ex: Option<Exchange>, parse: Parser)
    : (r: Result<ResourceModel, OperationError>)
    ensures ex.None? ==> r == Err(NilResponse)
    ensures ex.Some? && ex.value.SendFailed? ==> r == Err(ClientError(ex.value.message))
    ensures r.Ok? <==>
              ex.Some? && ex.value.Answered? && ex.value.status in Accepted(op) && (op == DeleteOp || ex.value.body.Ok?)
    ensures ex.Some? && ex.value.Answered? && ex.value.status !in Accepted(op) ==>
              r == (if op == CreateOp && ex.value.body.Err? then Err(ReadError(ex.value.body.error))
                    else Err(ApiError(ex.value.status)))
    ensures r.Ok? && op != DeleteOp ==>
              r.value == data.(statusCode := Some(ex.value.status), response := Some(ex.value.body.value),
                               id := if op == CreateOp then Some(IdFrom(UnmarshalObject(parse(ex.value.body.value)), url))
                                     else data.id)
    ensures r.Ok? && op == DeleteOp ==> r.value == data.(statusCode := Some(ex.value.status))
  {
    match ex
    case None => Err(NilResponse)
    case Some(SendFailed(m)) => Err(ClientError(m))
    case Some(Answered(status, content)) =>
      if op == CreateOp && content.Err? then Err(ReadError(content.error))
      else if status !in Accepted(op) then Err(ApiError(status))
      else if op == DeleteOp then Ok(data.(statusCode := Some(status)))
      else if content.Err? then Err(ReadError(content.error))
      else
        var id := if op == CreateOp then Some(IdFrom(UnmarshalObject(parse(content.value)), url)) else data.id;
        Ok(data.(statusCode := Some(status), response := Some(content.value), id := id))
  }

  /** What every operation promises about its request and its send loop. */
  ghost predicate Performed(a: ApiAccess, data: ResourceModel, op: Operation, send: Sender, parse: Parser,
                            r: Result<ResourceModel, OperationError>, sent: Option<Outgoing>, calls: nat) {
    if OperationLine(a, data, op).Err? then
      r == Err(RequestCreationError(OperationLine(a, data, op).error)) && sent.None? && calls == 0
    else
      && sent.Some? && SentAs(a, data, op, sent.value)
      && var settings := SettingsFor(data.timeout, data.insecure);
         RetriedSend(send, settings, sent.value, AttemptsFor(data.retryAttempts), calls)
         && r == Completion(data, OperationURL(a, data, op), op, LastExchange(send, settings, sent.value, calls), parse)
  }

  /** The request of an operation, with its headers set, and the send loop over it. */
  method SendOperation(a: ApiAccess, data: ResourceModel, op: Operation, url: string, body: Option<Bytes>,
                       send: Sender)
    returns (made: Result<Outgoing, RequestError>, ex: Option<Exchange>, calls: nat)
    requires url == OperationURL(a, data, op) && body == OperationBody(data, op)
    ensures made.Err? ==> OperationLine(a, data, op).Err? && made.error == OperationLine(a, data, op).error
                          && calls == 0 && ex.None?
    ensures made.Ok? ==>
              SentAs(a, data, op, made.value)
              && var settings := SettingsFor(data.timeout, data.insecure);
                 RetriedSend(send, settings, made.value, AttemptsFor(data.retryAttempts), calls)
                 && ex == LastExchange(send, settings, made.value, calls)
  {
    var settings := SettingsFor(data.timeout, data.insecure);
    var req := NewAuthRequest(MethodOf(op), url, body, a.header, a.token, op != ReadOp);
    if req.Err? {
      return Err(req.error), None, 0;
    }
    var out := req.value.Snapshot();
    var attempts := 1;
    if data.retryAttempts.Some? {
      attempts := data.retryAttempts.value;
    }
    ex, calls := SendWithRetry(send, settings, out, attempts);
    made := Ok(out);
  }

  /** Create: POST the body (or "{}"), read the answer, accept 200 and 201, take the id from it. */
  method Create(a: ApiAccess, data: ResourceModel, send: Sender, parse: Parser)
    returns (r: Result<ResourceModel, OperationError>, sent: Option<Outgoing>, calls: nat)
    ensures Performed(a, data, CreateOp, send, parse, r, sent, calls)
  {
    var url := a.baseURL + data.endpoint;
    var requestBody := data.body.GetOr("");
    if requestBody == "" {
      requestBody := "{}";
    }
    var made, ex;
    made, ex, calls := SendOperation(a, data, CreateOp, url, Some(Encode(requestBody)), send);
    if made.Err? {
      return Err(RequestCreationError(made.error)), None, calls;
    }
    sent := Some(made.value);
    match ex {
      case None =>
        r := Err(NilResponse);
      case Some(SendFailed(m)) =>
        r := Err(ClientError(m));
      case Some(Answered(status, content)) =>
        if content.Err? {
          r := Err(ReadError(content.error));
          return;
        }
        var model := data.(statusCode := Some(status));
        if status != 201 && status != 200 {
          r := Err(ApiError(status));
          return;
        }
        model := model.(response := Some(content.value));
        var id := IdFrom(UnmarshalObject(parse(content.value)), url);
        r := Ok(model.(id := Some(id)));
    }
  }

  /** Read: GET the item with no body and no Content-Type, accept 200 only, then read the answer. */
  method Read(a: ApiAccess, data: ResourceModel, send: Sender, parse: Parser)
    returns (r: Result<ResourceModel, OperationError>, sent: Option<Outgoing>, calls: nat)
    ensures Performed(a, data, ReadOp, send, parse, r, sent, calls)
  {
    var url := a.baseURL + data.endpoint + "/" + data.name;
    var made, ex;
    made, ex, calls := SendOperation(a, data, ReadOp, url, None, send);
    if made.Err? {
      return Err(RequestCreationError(made.error)), None, calls;
    }
    sent := Some(made.value);
    r := Checked(data, url, ReadOp, ex, parse);
  }

  /** Update: PUT the body (or "{}") to the item, accept 200 only, then read the answer. */
  method Update(a: ApiAccess, data: ResourceModel, send: Sender, parse: Parser)
    returns (r: Result<ResourceModel, OperationError>, sent: Option<Outgoing>, calls: nat)
    ensures Performed(a, data, UpdateOp, send, parse, r, sent, calls)
  {
    var url := a.baseURL + data.endpoint + "/" + data.name;
    var requestBody := data.body.GetOr("");
    if requestBody == "" {
      requestBody := "{}";
    }
    var made, ex;
    made, ex, calls := SendOperation(a, data, UpdateOp, url, Some(Encode(requestBody)), send);
    if made.Err? {
      return Err(RequestCreationError(made.error)), None, calls;
    }
    sent := Some(made.value);
    r := Checked(data, url, UpdateOp, ex, parse);
  }

  /** The tail Read and Update share: the status check, then the body read. */
  method Checked(data: ResourceModel, url: string, op: Operation, ex: Option<Exchange>, parse: Parser)
    returns (r: Result<ResourceModel, OperationError>)
    requires op in {ReadOp, UpdateOp}
    ensures r == Completion(data, url, op, ex, parse)
  {
    match ex {
      case None =>
        r := Err(NilResponse);
      case Some(SendFailed(m)) =>
        r := Err(ClientError(m));
      case Some(Answered(status, content)) =>
        var model := data.(statusCode := Some(status));
        if status != 200 {
          r := Err(ApiError(status));
          return;
        }
        if content.Err? {
          r := Err(ReadError(content.error));
          return;
        }
        r := Ok(model.(response := Some(content.value)));
    }
  }

  /** Delete: DELETE the item with destroy_body (or "{}"), accept 200 and 204, never read the answer. */
  method Delete(a: ApiAccess, data: ResourceModel, send: Sender, parse: Parser)
    returns (r: Result<ResourceModel, OperationError>, sent: Option<Outgoing>, calls: nat)
    ensures Performed(a, data, DeleteOp, send, parse, r, sent, calls)
  {
    var url := a.baseURL + data.endpoint + "/" + data.name;
    var destroyRequestBody := data.destroyBody.GetOr("");
    if destroyRequestBody == "" {
      destroyRequestBody := "{}";
    }
    var made, ex;
    made, ex, calls := SendOperation(a, data, DeleteOp, url, Some(Encode(destroyRequestBody)), send);
    if made.Err? {
      return Err(RequestCreationError(made.error)), None, calls;
    }
    sent := Some(made.value);
    match ex {
      case None =>
        r := Err(NilResponse);
      case Some(SendFailed(m)) =>
        r := Err(ClientError(m));
      case Some(Answered(status, _)) =>
        if status != 200 && status != 204 {
          r := Err(ApiError(status));
          return;
        }
        r := Ok(data.(statusCode := Some(status)));
    }
  }

  /**
   * The request each operation sends: its fixed method, its URL, and Content-Type on every
   * operation but Read, after the token header.
   */
  lemma SentRequestShape(a: ApiAccess, data: ResourceModel, op: Operation, sent: Outgoing)
    requires SentAs(a, data, op, sent)
    ensures sent.verb == MethodOf(op)
    ensures sent.url == ParseUrl(OperationURL(a, data, op)).value
    ensures op != ReadOp ==> sent.header["Content-Type"] == "application/json"
    ensures op == ReadOp || CanonicalHeaderKey(a.header) != "Content-Type" ==>
              sent.header[CanonicalHeaderKey(a.header)] == a.token
    ensures op == ReadOp ==> sent.header.Keys == {CanonicalHeaderKey(a.header)}
  {
  }

  /** An answer is an API error exactly when its status is not one the operation accepts (and, for Create, its body was read). */
  lemma ApiErrorIffNotAccepted(data: ResourceModel, url: string, op: Operation, status: int,
                               content: Result<Bytes, string>, parse: Parser)
    requires op == CreateOp ==> content.Ok?
    ensures Completion(data, url, op, Some(Answered(status, content)), parse) == Err(ApiError(status))
            <==> status !in Accepted(op)
  {
  }

  /** Create takes the id from a JSON object whose "id" is a string. */
  lemma CreateIdFromBody(data: ResourceModel, url: string, status: int, b: Bytes, parse: Parser, id: string)
    requires status in {200, 201}
    requires parse(b).Some? && parse(b).value.JObject?
    requires "id" in parse(b).value.fields && parse(b).value.fields["id"] == JString(id)
    ensures Completion(data, url, CreateOp, Some(Answered(status, Ok(b))), parse).Ok?
    ensures Completion(data, url, CreateOp, Some(Answered(status, Ok(b))), parse).value.id == Some(id)
  {
  }

  /** Otherwise the id is the request URL. */
  lemma CreateIdFallsBack(data: ResourceModel, url: string, status: int, b: Bytes, parse: Parser)
    requires status in {200, 201}
    requires parse(b).None? || parse(b) == Some(JNull) || !parse(b).value.JObject?
             || "id" !in parse(b).value.fields || !parse(b).value.fields["id"].JString?
    ensures Completion(data, url, CreateOp, Some(Answered(status, Ok(b))), parse) ==
            Ok(data.(statusCode := Some(status), response := Some(b), id := Some(url)))
  {
    IdFallback(parse(b), url);
  }
}
