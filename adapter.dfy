/**
 * What the data source and the resource share: the per-call http.Client settings, the
 * exchange with the server as an oracle, the send loop that retries transport errors only,
 * and the summaries of the diagnostics they report.
 */
module Adapter {
  import opened Wrappers
  import opened Utf8
  import opened Http
  import opened Retry

  /** What the data source and the resource keep from the provider: the base URL and the token header. */
  datatype ApiAccess = ApiAccess(baseURL: string, token: string, header: string)

  /** The http.Client each operation makes: its timeout (0 is none) and whether certificates are checked. */
  datatype ClientSettings = ClientSettings(timeout: int, insecureSkipVerify: bool)

  /** The http.Client timeout of an operation: none when the attribute is null. */
  function TimeoutFor(seconds: Option<int>): (t: int)
    ensures seconds.None? ==> t == 0
    ensures seconds.Some? ==> t == SecondsToDuration(seconds.value)
  {
    match seconds
    case None => 0
    case Some(s) => SecondsToDuration(s)
  }

  /** The client settings of an operation: the timeout attribute and insecure when set to true. */
  function SettingsFor(timeout: Option<int>, insecure: Option<bool>): (s: ClientSettings)
    ensures s.insecureSkipVerify <==> insecure == Some(true)
    ensures s.timeout == TimeoutFor(timeout)
  {
    ClientSettings(TimeoutFor(timeout), insecure.Some? && insecure.value)
  }

  /** How one client.Do ended: an error, or a response whose body can be read or not. */
  datatype Exchange =
    | SendFailed(message: string)
    | Answered(status: int, body: Result<Bytes, string>)

  /** The server and the network: the client settings, the request and the attempt index give the exchange. */
  type Sender = (ClientSettings, Outgoing, nat) -> Exchange

  /** The retry_attempts attribute, 1 when null. */
  function AttemptsFor(retryAttempts: Option<int>): (n: int)
    ensures retryAttempts.None? ==> n == 1
    ensures retryAttempts.Some? ==> n == retryAttempts.value
  {
    retryAttempts.GetOr(1)
  }

  /**
   * The calls the send loop of an operation makes: none when `attempts` is not positive;
   * otherwise between 1 and `attempts`, every call but the last fails, and a failing last call
   * means the attempts ran out.
   */
  ghost predicate RetriedSend(send: Sender, settings: ClientSettings, req: Outgoing, attempts: int, calls: nat) {
    if attempts <= 0 then calls == 0
    else
      && 1 <= calls <= attempts
      && (forall j :: 0 <= j < calls - 1 ==> send(settings, req, j).SendFailed?)
      && (send(settings, req, calls - 1).SendFailed? ==> calls == attempts)
  }

  /** The exchange the loop ends with: the one of its last call, None when it made none. */
  function LastExchange(send: Sender, settings: ClientSettings, req: Outgoing, calls: nat): (ex: Option<Exchange>)
    ensures ex.None? <==> calls == 0
  {
    if calls == 0 then None else Some(send(settings, req, calls - 1))
  }

  /**
   * `for i := 0; i < retryAttempts; i++ { httpResp, err = client.Do(httpReq); if err == nil { break } }`:
   * a status code never leads to another call, only a failed send does.
   */
  method SendWithRetry(send: Sender, settings: ClientSettings, req: Outgoing, attempts: int)
    returns (ex: Option<Exchange>, calls: nat)
    ensures RetriedSend(send, settings, req, attempts, calls)
    ensures ex == LastExchange(send, settings, req, calls)
  {
    ex, calls := None, 0;
    var i := 0;
    while i < attempts
      invariant 0 <= i == calls
      invariant i == 0 || i <= attempts
      invariant i > 0 ==> ex == Some(send(settings, req, i - 1)) && ex.value.SendFailed?
      invariant i == 0 ==> ex.None?
      invariant forall j :: 0 <= j < i ==> send(settings, req, j).SendFailed?
      decreases attempts - i
    {
      var e := send(settings, req, i);
      ex, calls := Some(e), calls + 1;
      if e.Answered? {
        return;
      }
      i := i + 1;
    }
  }

  /** The number of calls is fixed by the server's answers: the first answer, or all attempts. */
  lemma {:induction false} RetriedSendUnique(send: Sender, settings: ClientSettings, req: Outgoing, attempts: int,
                                             calls: nat, calls': nat)
    requires RetriedSend(send, settings, req, attempts, calls) && RetriedSend(send, settings, req, attempts, calls')
    ensures calls == calls'
  {
  }

  /** A server that answers at once is called once; one that never answers is called `attempts` times. */
  lemma SendCalls(send: Sender, settings: ClientSettings, req: Outgoing, attempts: int, calls: nat)
    requires attempts > 0 && RetriedSend(send, settings, req, attempts, calls)
    ensures send(settings, req, 0).Answered? ==> calls == 1
    ensures (forall j :: 0 <= j < attempts ==> send(settings, req, j).SendFailed?)
            ==> calls == attempts && LastExchange(send, settings, req, calls).value.SendFailed?
    ensures forall n :: 0 <= n < attempts && send(settings, req, n).Answered? ==> calls <= n + 1
  {
    if calls > 1 {
      assert send(settings, req, 0).SendFailed?;
    }
    if forall j :: 0 <= j < attempts ==> send(settings, req, j).SendFailed? {
      assert send(settings, req, calls - 1).SendFailed?;
    }
  }

  /** The summaries of the diagnostics the operations add. */
  datatype OperationError =
    | RequestCreationError(cause: RequestError)    // "Request Creation Error"
    | ClientError(message: string)                 // "Client Error": every send failed
    | NilResponse                                  // retry_attempts <= 0: the nil response is dereferenced
    | ReadError(message: string)                   // "Read Error"
    | ApiError(status: int)                        // "API Error"
    | ParseError                                   // "Parse Error"

  /** The header of an operation's request: the provider's token header, then Content-Type when set. */
  function AuthHeaderMap(tokenHeader: string, token: string, contentType: bool): (h: map<string, string>)
    ensures CanonicalHeaderKey(tokenHeader) in h
    ensures contentType ==> "Content-Type" in h && h["Content-Type"] == "application/json"
    ensures !contentType || CanonicalHeaderKey(tokenHeader) != "Content-Type" ==> h[CanonicalHeaderKey(tokenHeader)] == token
    ensures h.Keys == {CanonicalHeaderKey(tokenHeader)} + (if contentType then {"Content-Type"} else {})
  {
    KnownKeysCanonical();
    var h1 := map[CanonicalHeaderKey(tokenHeader) := token];
    if contentType then h1[CanonicalHeaderKey("Content-Type") := "application/json"] else h1
  }

  /** A body of zero length goes out as no body, as http.NewRequest sets http.NoBody for it. */
  function BodyOf(text: string): (b: Option<Bytes>)
    ensures b.None? <==> text == ""
    ensures b.Some? ==> b.value == Encode(text)
    ensures SentBody(b) == b
  {
    if text == "" then None else Some(Encode(text))
  }

  /** http.NewRequest with the token header and, when asked, the JSON content type set on it. */
  method NewAuthRequest(verb: string, url: string, body: Option<Bytes>, tokenHeader: string, token: string, contentType: bool)
    returns (r: Result<Request, RequestError>)
    ensures r.Err? <==> RequestLine(verb, url).Err?
    ensures r.Err? ==> r.error == RequestLine(verb, url).error
    ensures r.Ok? ==> fresh(r.value) && (r.value.verb, r.value.url) == RequestLine(verb, url).value
                      && r.value.body == SentBody(body) && r.value.header == AuthHeaderMap(tokenHeader, token, contentType)
  {
    r := NewRequest(verb, url, body);
    if r.Ok? {
      r.value.Set(tokenHeader, token);
      if contentType {
        r.value.Set("Content-Type", "application/json");
      }
      KnownKeysCanonical();
    }
  }
}
