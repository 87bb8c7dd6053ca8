# terraform-provider-rest, modelled in Dafny

The provider manages arbitrary REST objects from Terraform. Its core is a small HTTP client and three framework entry points that use it:

- **The REST client** (`internal/client/client.go`). It checks and completes its configuration. It picks at most one client certificate: an inline PEM pair, a PEM file pair, an inline base64 PKCS#12 bundle or a PKCS#12 file. It builds a default header map and joins endpoints and query parameters onto the base URL. It sends each request through a retry loop with capped exponential backoff.
- **Provider `Configure`** (`internal/provider/provider.go`). It checks that exactly one authentication method is configured. It fills in the defaults, copies the chosen credentials into the client configuration and stores the client for data sources and resources.
- **The `rest` data source** (`internal/provider/rest_data_source.go`). Its `Read` sends one request and records the status, the raw body, an id and a flat `parsed_data` map of the JSON answer.
- **The `rest` resource** (`internal/provider/rest_resource.go`). Its `Create`, `Read`, `Update` and `Delete` send POST, GET, PUT and DELETE. Each one accepts its own set of status codes.

Modules:

- `Wrappers`, `Text` and `Utf8` model Go's `strings` functions and Go's UTF-8 strings, on `seq<char>` and `seq<byte>`.
- `ByteOrder`, `Urls` and `Http` model the parts of `sort`, `net/url` and `net/http` that the core relies on. These are: `getScheme`, `url.Parse` (fragment, query split, control bytes), `URL.String`, `QueryEscape`/`QueryUnescape`, `ParseQuery`, `Values.Add`/`Values.Encode`, `CanonicalMIMEHeaderKey`, `Header.Set` and `NewRequest`'s method check.
- `Retry` models `calculateBackoff`, the two classifiers and `executeWithRetry`.
- `Client` models `Config`, `configureTLSAuth`, `NewRestClient`, `buildURL`, `setHeaders` and `Do`.
- `Json` models what the provider does with a decoded JSON value.
- `Provider` models `Configure`.
- `Adapter` models what the data source and the resource share: the per-operation `http.Client`, the send loop that retries only transport errors, and the diagnostics.
- `DataSource` and `Resource` model the framework operations.

From the model's side:

- The network, the server and the caller's context are an oracle. For each attempt it says how the attempt ended and whether the context was done.
- The certificate and PKCS#12 decoders are oracles that may fail.
- The JSON parser and `%v` formatting are oracles.
- `http.Request` (its header is set in place), `tls.Config` (its certificates are assigned) and the provider's `ConfigureResponse` are classes.
- Everything else is a value.
- Each method is proved against a specification: most are proved equal to a specification function. The methods that set headers in map order or loop over attempts are proved against a relation instead: `Request.SetAll` and `Client.SetHeaders` against `SetFrom` and `HeadersSet`, `Adapter.SendWithRetry` against `RetriedSend`, and `DataSource.Read` and the resource operations against `RetriedSend` and `Performed`. The properties are proved about those functions and relations.

Durations are `int` nanoseconds. Where the Go code multiplies them as `int64`, the model wraps them explicitly (`Retry.Int64Wrap`).

## Model

| member | source | states |
|---|---|---|
| Retry.CalculateBackoff | internal/client/client.go:354-365 | the delay is between 1s and 30s; it is 1s·2^attempt for attempts 0 to 4 and exactly 30s from attempt 5 on |
| Retry.BackoffTable | internal/client/client.go:354-365 | the first delays are 1s, 2s, 4s, 8s and 16s, then 30s |
| Retry.BackoffMonotone | internal/client/client.go:354-365 | a later attempt never waits less than an earlier one |
| Retry.Int64Wrap | internal/client/client.go:359 | the result is in the int64 range, equals the input when the input is in range, and is congruent to it modulo 2^64 |
| Retry.ShiftOne | internal/client/client.go:359 | `1 << uint(n)` as an int64 stays in the int64 range |
| Retry.CalculateBackoffAsWritten | internal/client/client.go:354-365 | the delay as computed with int64 arithmetic is never above the 30s cap |
| Retry.AsWrittenAgreesBelow34 | internal/client/client.go:354-365 | below attempt 34 the code as written computes the intended delay |
| Retry.AsWrittenNegativeAt34 | internal/client/client.go:359 | at attempt 34 the delay as written is -1 266 874 889 709 551 616 ns |
| Retry.AsWrittenZeroFrom55 | internal/client/client.go:359 | from attempt 55 on the delay as written is zero: 2^attempt · 10^9 is then a multiple of 2^64 |
| Retry.WrapMultiple | internal/client/client.go:359 | a multiple of 2^64 wraps to zero as an int64 |
| Retry.IsRetryableError | internal/client/client.go:368-386 | a nil error is not retryable; an error is retryable exactly when its message contains one of the four phrases somewhere |
| Retry.IsRetryableStatusCode | internal/client/client.go:389-400 | a status is retryable exactly when it is 429, 500, 502, 503 or 504 |
| Retry.ExecuteWithRetry | internal/client/client.go:246-351 | the loop's result, its attempt count and its backoff waits are those of `Run` (which follows every branch of the loop) from attempt 0 with no error yet |
| Retry.RunBounds | internal/client/client.go:249-282 | with attempts left, a run makes between 1 and the remaining number of attempts; it waits less often than it calls, and its i-th wait is the backoff of its i-th attempt |
| Retry.RunContinues | internal/client/client.go:260-329 | every attempt but the last was not the final one, was not cancelled, and was a transport error, a non-2xx body-read error or a retryable status |
| Retry.RunFinal | internal/client/client.go:257-350 | the last attempt made is within the attempts and does not go on, and it decides the outcome in both directions. A status that is not retryable, or comes on the last attempt, is returned as the response; a 2xx body-read failure is returned as such; a transport error with the context done is a cancellation. Conversely a response comes only from such a status, and a cancellation only from a done context after a transport error or during the wait after a failure that is retried. Running out of attempts keeps the last failure, which is never a status code |
| Retry.Run | internal/client/client.go:249-350 | with no attempts left the run makes no call and reports the exhaustion with the last failure; otherwise it makes at least one call; a response carries the request sent, and an exhaustion names the configured attempt count |
| Retry.RunStopsAtFirst | internal/client/client.go:249-329 | the run stops at the first attempt that does not go on: when that is attempt n, exactly n + 1 attempts are made |
| Retry.ThreeAttemptsExample | internal/client/client_test.go:250-298 | two 500s and then a 200, with three attempts, give the 200 after three calls and waits of 1s and 2s |
| Retry.SecondsToDuration | internal/provider/provider.go:213-216 | `time.Duration(s) * time.Second` is s seconds whenever that fits in an int64 |
| Client.SelectBranch | internal/client/client.go:403-455 | each certificate variant is chosen exactly when its inputs are non-empty and no earlier variant's are; with none set there is no client certificate |
| Client.TlsAuth | internal/client/client.go:403-455 | no variant means no certificate and no error. Each PEM pair gives the decoder's certificate or its key-pair error. A PKCS#12 bundle that is not base64, or a PKCS#12 file that cannot be read, is its own error; otherwise the PKCS#12 decoder's certificate, or the decode error |
| Client.Pkcs12ParseFailureRefused | internal/client/client.go:425-451 | a PKCS#12 input that the decoder refuses, for instance for a wrong password, is an error and installs no certificate |
| Client.ConfigureTlsAuth | internal/client/client.go:403-455 | fails exactly when the selected variant's decoding fails, with that variant's error; on success it installs that one certificate and leaves the verification switch alone |
| Client.TlsConfig.constructor | internal/client/client.go:105-107 | the tls.Config starts with the insecure flag of the configuration and no certificates |
| Client.TlsAuthFirstMatch | internal/client/client.go:405-422 | when a PEM pair is complete, the PKCS#12 inputs change neither the variant chosen nor its outcome |
| Client.HalfPairSkipped | internal/client/client.go:405-422 | a pair with a half missing is not an error, whichever of the two pairs it is and whether the other pair is half set or empty: it is passed over and, with no PKCS#12 input, there is no certificate |
| Client.WithDefaults | internal/client/client.go:80-94 | the zero timeout, retry count, user agent, idle-connection count and idle timeout become 30s, 3, "terraform-provider-rest/1.0", 100 and 90s; every other field is kept |
| Client.WithDefaultsIdempotent | internal/client/client.go:80-94 | applying the defaults again changes nothing, and timeout, retries and user agent are then never zero |
| Client.DefaultHeaders | internal/client/client.go:123-136 | the keys are User-Agent, Accept, Content-Type, every custom key and the token header when token and header are set; custom headers win, and the token and defaults stay where no custom header or token replaced them |
| Client.FillHeaders | internal/client/client.go:123-136 | the header map the constructor builds is `DefaultHeaders` |
| Client.AssignAll | internal/client/client.go:134-136 | assigning every custom header in any map order gives the map overridden by the custom headers |
| Client.ClientFor | internal/client/client.go:62-146 | a client is built exactly when the base URL is non-empty, parses and has a scheme, and `TlsAuth` succeeds on the configuration with its defaults; with such a URL a `TlsAuth` error is returned as `TlsFailed` with that error; a built client's certificates are `TlsAuth`'s one certificate, or none |
| Client.NewRestClient | internal/client/client.go:62-146 | the constructor returns `ClientFor` for its configuration: the three URL errors, the TLS error, or the client |
| Client.EmptyBaseUrlRefused | internal/client/client.go:64-66 | an empty base URL is the error "base URL is required" |
| Client.SchemelessBaseUrlRefused | internal/client/client.go:74-77 | "not-a-url" is refused for lacking a scheme |
| Client.BuiltClientDefaults | internal/client/client.go:80-145 | a built client has the defaults for zero settings, the configured keep-alive switch, a 10s TLS handshake timeout, the insecure flag and `DefaultHeaders`, and a base URL that is the configured one without trailing '/' |
| Client.Overrides | internal/client/client.go:190-200 | a positive timeout or retry count of the call replaces the client's, otherwise the client's is used |
| Client.BuildURL | internal/client/client.go:207-230 | building fails exactly when base + "/" + endpoint (minus one leading '/') does not parse |
| Client.BuildURLNoParams | internal/client/client.go:207-230 | without parameters the URL is the joined text itself, when it prints back as it parsed |
| Client.QueryPrinted | internal/client/client.go:226-229 | a query set on a URL is printed after a '?' with all it contains |
| Client.BuildURLHasParams | internal/client/client.go:220-229 | with parameters the URL has a '?' and contains every parameter as escaped key=value |
| Client.BuildURLPlainParam | internal/client/client_test.go:315-357 | a parameter made of letters, digits and "-_.~" appears in the URL literally as key=value |
| Client.SetHeaders | internal/client/client.go:233-243 | the request header is the client's headers set one by one through Header.Set, then the call's |
| Client.Do | internal/client/client.go:168-204 | the URL error and the request error come back wrapped and send nothing. Otherwise the request sent has the built URL, the body as `SentBody` gives it (an empty one is no body) and the headers of `SetHeaders`, and the result is the retry loop's with the resolved timeout and retry count |
| Http.CanonicalHeaderKey | internal/client/client.go:236 | a key with a non-token character is left as it is; otherwise the first letter and every letter after '-' become upper case and the others lower case |
| Http.CanonicalIdempotent | internal/client/client.go:236 | canonicalising a canonical key changes nothing |
| Http.CanonicalSameLower | internal/client/client.go:236 | canonicalisation only changes the case of letters |
| Http.ValidMethod | internal/client/client.go:182-185 | a valid method is non-empty ASCII without spaces or line breaks |
| Http.SentBody | internal/client/client.go:182-185 | a nil or zero-length body goes out as no body; any other as it is |
| Http.RequestLine | internal/client/client.go:182-185 | an empty method means GET; the request can be made exactly when the method is a token and the URL parses, and it carries the parsed URL |
| Http.NewRequest | internal/client/client.go:182-185 | a new request has the checked request line, the body as `SentBody` gives it and an empty header, or the reason it cannot be made |
| Http.Request.constructor | internal/client/client.go:182-185 | the request holds its method, URL and body, with no header |
| Http.Request.Set | internal/client/client.go:236 | Header.Set binds the canonical key to the one value and changes nothing else |
| Http.Request.SetAll | internal/client/client.go:235-242 | setting every entry of a map in map order is related to the old header by `SetFrom` |
| Http.Request.Snapshot | internal/client/client.go:203 | what the transport sees carries the request's current header |
| Http.LaterSetWins | internal/client/client.go:239-242 | a header set in the second loop overrides the first loop's value under the same canonical key |
| Http.SetFromWins | internal/client/client.go:239-242 | when no two keys of a map share a canonical form, each of them ends up with its own value |
| Http.KnownKeysCanonical | internal/client/client.go:124-126 | User-Agent, Accept and Content-Type are already canonical |
| Urls.GetScheme | internal/client/client.go:69-77 | a scheme is returned only when it is a scheme name and the text is the scheme, ':' and the rest |
| Urls.GetSchemeIff | internal/client/client.go:69-77 | the scheme is found exactly when the text starts with a scheme name and ':' |
| Urls.NoColonNoScheme | internal/client/client.go:74-77 | a text without ':' has no scheme and is all rest |
| Urls.ParseUrl | internal/client/client.go:215-218 | the text is refused exactly when the part before the first '#' holds a control character or starts with ':', or the fragment holds a malformed %-escape; the scheme parsed is lower case and the fragment is kept as written |
| Urls.UrlStringParts | internal/client/client.go:229 | `URL.String` as `UrlString` models it: the printed URL starts with the scheme and ':', ends with '#' and the fragment, and without query or fragment is the scheme and the rest |
| Urls.QuerySplitRoundTrip | internal/client/client.go:215-229 | the query split of url.Parse, printed again, gives back the text it split |
| Urls.FragmentRoundTrip | internal/client/client.go:215-229 | cutting at the first '#' and printing back a non-empty fragment gives back the text |
| Urls.SchemeRoundTrip | internal/client/client.go:215-229 | a scheme that was read, printed back with its ':', gives back the text |
| Urls.ParsePrintRoundTrip | internal/client/client.go:215-229 | parsing then printing gives back the text when the scheme is lower case and no fragment is empty |
| Urls.QueryEscape | internal/client/client.go:226 | the escaped text is ASCII |
| Urls.QueryUnescape | internal/client/client.go:221 | unescaping fails, with an invalid-escape error, exactly when some '%' is not followed by two hex digits; the result is never longer than the input |
| Urls.Query | internal/client/client.go:221 | an empty raw query has no values |
| Urls.ParsePieces | internal/client/client.go:221 | the pieces only add keys and append values: every key keeps its earlier values as a prefix |
| Urls.AddPiece | internal/client/client.go:221 | a piece that holds ';', is empty, or has a badly escaped key or value is skipped; otherwise at most one value is appended after the existing values of one key, and the values of every key are kept as a prefix |
| Urls.EncodeValues | internal/client/client.go:226 | no values encode to the empty query |
| Urls.QueryEscapeRoundTrip | internal/client/client.go:226 | unescaping an escaped byte string gives back the bytes |
| Urls.QueryEscapeUnreserved | internal/client/client.go:226 | a string of letters, digits and "-_.~" escapes to itself |
| Urls.AddParams | internal/client/client.go:223-225 | each parameter's value is added after the existing values of its key; other keys keep their values and no other keys are added |
| Urls.AddParamsHasValue | internal/client/client.go:223-225 | after `Values.Add` of every parameter, each parameter's value is among the values of its key |
| Urls.EncodeHasPair | internal/client/client.go:226 | `Values.Encode` writes every value of every key as key=value into the query |
| ByteOrder.Sorted | internal/client/client.go:226 | the keys come out in strictly increasing byte order, each once, and no other |
| ByteOrder.LessTotal | internal/client/client.go:226 | any two different keys are ordered |
| ByteOrder.LessTransitive | internal/client/client.go:226 | the key order is transitive |
| Text.TrimPrefix | internal/client/client.go:209 | one leading copy of the prefix is dropped when there is one, else the text is unchanged |
| Text.TrimRight | internal/client/client.go:139 | the result is a prefix of the text, does not end in the trimmed character, and only that character was dropped |
| Text.ContainsIffOccurs | internal/client/client.go:371-385 | `strings.Contains` holds exactly when the phrase occurs at some index |
| Text.Cut | internal/client/client.go:215-218 | the split is around the first separator, or the whole text when there is none |
| Utf8.DecodeEncodeChar | internal/client/client.go:226 | the UTF-8 encoding of a character decodes back to it |
| Utf8.EncodeInjective | internal/client/client.go:223-226 | different strings have different UTF-8 encodings, so distinct keys stay distinct |
| Utf8.EncodeAscii | internal/client/client.go:226 | an ASCII string encodes byte for byte |
| Provider.AuthMethods | internal/provider/provider.go:159-175 | the counter is at most three |
| Provider.AuthMethodsCountsMethods | internal/provider/provider.go:159-175 | the counter equals the number of authentication methods given: a token, a complete certificate pair (inline or file), or a PKCS#12 input |
| Provider.Validate | internal/provider/provider.go:150-210 | the checks in order never report a client-construction error; a configuration passes exactly when it has a URL, exactly one method and no pair with one half set; no method and several methods get their own errors |
| Provider.HalfPairRefused | internal/provider/provider.go:194-210 | a half-set inline pair, and otherwise a half-set file pair, is refused even beside exactly one complete method |
| Provider.VariantOf | internal/provider/provider.go:248-272 | each credential variant is chosen exactly when it is given and none before it is; none exactly when no method is given |
| Provider.ValidVariant | internal/provider/provider.go:150-272 | a configuration that passes has a variant, and it is the variant of its only method |
| Provider.ClientConfigFor | internal/provider/provider.go:213-272 | the client configuration has the URL, the 30s / 3 / 100 / "Authorization" defaults for null attributes, and the chosen variant's credentials only; the password goes only with PKCS#12 |
| Provider.BuildClientConfig | internal/provider/provider.go:213-272 | the step-by-step copy gives `ClientConfigFor` |
| Provider.ConfigureOutcome | internal/provider/provider.go:123-290 | a failed check is its error; otherwise the outcome is the client or, wrapped, the constructor's error |
| Provider.MissingUrlRefused | internal/provider/provider.go:150-156 | a null api_url is refused before anything else |
| Provider.VariantReachesClient | internal/provider/provider.go:248-272 | the copied variant is the one the client then selects, unless its values are empty strings |
| Provider.ConfigureResponse.constructor | internal/provider/provider.go:123 | the response starts with no diagnostics and no stored client |
| Provider.Configure | internal/provider/provider.go:123-290 | on error, one diagnostic is added and nothing is stored; on success, the client of `ConfigureOutcome` is stored for data sources and resources |
| Adapter.TimeoutFor | internal/provider/rest_data_source.go:160-170 | a null timeout is no timeout; a set one is those seconds as a duration |
| Adapter.SettingsFor | internal/provider/rest_data_source.go:160-170 | certificate checks are skipped exactly when insecure is true, and the timeout is that of `TimeoutFor` |
| Adapter.AttemptsFor | internal/provider/rest_data_source.go:190-193 | a null retry_attempts is one attempt, a set one its value |
| Adapter.LastExchange | internal/provider/rest_data_source.go:190-206 | there is no exchange exactly when no call was made |
| Adapter.SendWithRetry | internal/provider/rest_data_source.go:190-206 | the loop makes the calls `RetriedSend` describes: none with no attempts, else up to the first answer or all attempts; it ends with the last exchange |
| Adapter.RetriedSendUnique | internal/provider/rest_data_source.go:190-206 | the answers of the server fix the number of calls |
| Adapter.SendCalls | internal/provider/rest_data_source.go:190-206 | a server that answers at once is called once; one that never answers is called every attempt; an answer at attempt n means at most n + 1 calls |
| Adapter.AuthHeaderMap | internal/provider/rest_data_source.go:173-187 | the header holds the canonical token header with the token, unless Content-Type overwrote it, and Content-Type set to application/json when asked |
| Adapter.BodyOf | internal/provider/rest_resource.go:244-248 | an empty body text goes out as no body, any other text as its UTF-8 bytes; `SentBody` leaves the result as it is |
| Adapter.NewAuthRequest | internal/provider/rest_data_source.go:173-187 | the request fails exactly as `NewRequest` does; otherwise it carries the body and `AuthHeaderMap` |
| Json.UnmarshalObject | internal/provider/rest_data_source.go:223-227 | an object gives its fields, null gives no keys, and anything else is a parse error |
| Json.ParsedData | internal/provider/rest_data_source.go:229-237 | one entry per top-level key: a string as it is, any other value formatted |
| Json.Project | internal/provider/rest_data_source.go:229-237 | the loop over the decoded map, in any order, gives `ParsedData` |
| Json.IdFrom | internal/provider/rest_resource.go:294-303 | the id is the body's "id" when that is a JSON string, else the fallback |
| Json.IdFallback | internal/provider/rest_resource.go:294-303 | a body that is not JSON, is null, is not an object or has no string "id" keeps the fallback |
| DataSource.RequestURL | internal/provider/rest_data_source.go:149 | the URL is the base URL followed by the endpoint, with nothing added between them |
| DataSource.ReadMethod | internal/provider/rest_data_source.go:143-146 | the method is GET when the attribute is null, else the attribute |
| DataSource.RequestBody | internal/provider/rest_data_source.go:152-157 | a body goes out exactly when it is set, is not empty and the method is POST or PUT, as its UTF-8 bytes |
| DataSource.CustomHeaders | internal/provider/rest_data_source.go:183-187 | every configured header is set, a null value as the empty string |
| DataSource.Completion | internal/provider/rest_data_source.go:195-237 | no call is `NilResponse`; a failed send, an unreadable body and a body that is not an object or null are their errors; success records status, raw body, the URL as id and the parsed data |
| DataSource.Record | internal/provider/rest_data_source.go:207-237 | recording the exchange step by step gives `Completion` |
| DataSource.Read | internal/provider/rest_data_source.go:133-247 | a bad request line is a request-creation error with nothing sent; otherwise the request has the method, base + endpoint, the body and the auth headers followed by the custom headers; the send loop and the outcome are `RetriedSend` and `Completion` |
| DataSource.CustomHeadersOverride | internal/provider/rest_data_source.go:179-187 | the custom headers are set last: they override the token and Content-Type, and what they do not override keeps its value |
| DataSource.AnyStatusRecorded | internal/provider/rest_data_source.go:209-220 | any status is recorded as it came: the data source makes no success check |
| Resource.MethodOf | internal/provider/rest_resource.go:244-499 | each operation's method is a valid method, and only Read uses GET |
| Resource.Accepted | internal/provider/rest_resource.go:285-531 | every operation accepts 200, and none accepts anything but 200, 201 and 204; only Create accepts 201 and only Delete 204 |
| Resource.OperationURL | internal/provider/rest_resource.go:218 | Create targets base + endpoint; Read, Update and Delete target base + endpoint + "/" + name |
| Resource.BodyOrEmptyObject | internal/provider/rest_resource.go:221-224 | a null or empty body is sent as "{}", any other as written |
| Resource.OperationBody | internal/provider/rest_resource.go:482-485 | Read sends no body; Create and Update send the body or "{}"; Delete sends destroy_body or "{}" |
| Resource.Completion | internal/provider/rest_resource.go:255-303 | no call and a failed send are their errors. An operation succeeds exactly when the status is accepted (200/201, 200, 200, 200/204) and, except for Delete, the body was read. A rejected status is an API error, except that Create reports an unreadable body first. Success keeps the status, the body and, for Create, the id |
| Resource.SendOperation | internal/provider/rest_resource.go:244-271 | the request has the operation's line, body and auth headers, and the send loop is `RetriedSend` |
| Resource.Create | internal/provider/rest_resource.go:208-313 | Create is `Performed`: POST to the collection, and the outcome is `Completion` |
| Resource.Read | internal/provider/rest_resource.go:315-386 | Read is `Performed`: GET of the item without body or Content-Type |
| Resource.Update | internal/provider/rest_resource.go:388-468 | Update is `Performed`: PUT of the body to the item |
| Resource.Checked | internal/provider/rest_resource.go:369-383 | for Read and Update the status is checked before the body is read, as `Completion` says |
| Resource.Delete | internal/provider/rest_resource.go:470-540 | Delete is `Performed`: DELETE of the item with destroy_body; the body is never read |
| Resource.SentRequestShape | internal/provider/rest_resource.go:244-252 | each request has its fixed method and URL, Content-Type on all but Read, and the token unless Content-Type overwrote it |
| Resource.ApiErrorIffNotAccepted | internal/provider/rest_resource.go:282-288 | an answer is an API error exactly when its status is not accepted by the operation |
| Resource.CreateIdFromBody | internal/provider/rest_resource.go:294-303 | Create takes its id from a string "id" of the JSON object |
| Resource.CreateIdFallsBack | internal/provider/rest_resource.go:294-303 | otherwise Create's id is the request URL |

## Left out

- Network I/O, the TLS handshake, `time.After` sleeps and context deadlines: an oracle answers each attempt and reports whether the context was done.
- Certificate parsing, base64 decoding, file reads and `pkcs12.Decode`: these are decoders that may fail, not models of the formats.
- JSON parsing and the `%v` formatting of non-string values: these are oracles; numbers keep their literal text.
- `url.Parse`'s host and path validation, the unescaping of the path (including its refusal of a malformed %-escape there) and its re-escaping: the part between the scheme and the query is kept as written. Only the fragment's escapes are checked, and the fragment is kept in its escaped form.
- Urls.Query: the contract says only that an empty query has no values and that values are appended in order; which pieces are dropped is stated by `AddPiece`'s body alone.
- `tflog` logging, the framework's state and plan reads and writes, and `Schema`/`Metadata`/`ImportState`: the model starts from the attribute values and returns the new ones. Delete's removal from state is left to the framework.
- The text of diagnostics: only the summary and the cause are kept.
- The response headers in the data source and resource exchange, and the multi-valued form of `http.Header`: one value per key is modelled.
- The rewinding of a request body across attempts: each attempt is given the same request value.
- Retry.IsRetryableError: modelled and specified, but `executeWithRetry` does not call it, so the loop does not use it either.
- Adapter.SendWithRetry: `retry_attempts` at zero or below makes no call. The Go code then dereferences a nil response and panics; the model reports this as the error `NilResponse`.
- The type assertion on the provider data in the data source and resource `Configure`: it is not modelled, and the base URL, token and header are given as `ApiAccess`.
- Retry.ExecuteWithRetry: `Run` uses the corrected `CalculateBackoff`, not `CalculateBackoffAsWritten` (see Findings).

## Findings

| source | as written | input that shows it | evidently intended | confidence | as-written member | corrected member |
|---|---|---|---|---|---|---|
| internal/client/client.go:359 | one second times 2 to the power of the attempt is computed as an int64 product, which wraps before the 30s cap is applied | attempt 34, whose wait is computed only when at least 36 attempts are configured: the delay is -1 266 874 889 709 551 616 ns, so the loop does not wait; from attempt 55 on (at least 57 attempts) the delay is 0 | min(30s, 1s·2^attempt) for every attempt | not executed | Retry.CalculateBackoffAsWritten (Retry.AsWrittenNegativeAt34, Retry.AsWrittenZeroFrom55) | Retry.CalculateBackoff (Retry.BackoffMonotone; Retry.AsWrittenAgreesBelow34 shows the two agree below 34) |
