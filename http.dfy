/**
 * The part of Go's net/http that the client relies on: header-key canonicalisation
 * (textproto.CanonicalMIMEHeaderKey), Header.Set, method validation and
 * http.NewRequestWithContext, with the request as an object whose header is changed in place.
 */
module Http {
  import opened Wrappers
  import opened Text
  import opened Utf8
  import opened Urls

  /** The token characters of section 5.6.2 of RFC 9110, as net/http's token table lists them. */
  predicate IsTokenChar(c: char) {
    IsAsciiLetter(c) || IsAsciiDigit(c)
    || c == '!' || c == '#' || c == '$' || c == '%' || c == '&' || c == '\'' || c == '*'
    || c == '+' || c == '-' || c == '.' || c == '^' || c == '_' || c == '`' || c == '|' || c == '~'
  }

  predicate IsToken(s: string) {
    forall i :: 0 <= i < |s| ==> IsTokenChar(s[i])
  }

  /** Whether position i of a header key starts a word: the first character or one after '-'. */
  predicate StartsWord(s: string, i: int)
    requires 0 <= i < |s|
  {
    i == 0 || s[i - 1] == '-'
  }

  /**
   * CanonicalMIMEHeaderKey: a key that holds any non-token character is returned as it is;
   * otherwise the first letter and every letter after '-' are upper case and the rest lower case.
   */
  function CanonicalHeaderKey(s: string): (r: string)
    ensures |r| == |s|
    ensures !IsToken(s) ==> r == s
    ensures IsToken(s) ==> forall i :: 0 <= i < |s| ==>
              r[i] == (if StartsWord(s, i) then UpperChar(s[i]) else LowerChar(s[i]))
  {
    if !IsToken(s) then s
    else seq(|s|, i requires 0 <= i < |s| => if StartsWord(s, i) then UpperChar(s[i]) else LowerChar(s[i]))
  }

  /** Canonicalising a canonical key changes nothing. */
  lemma CanonicalIdempotent(s: string)
    ensures CanonicalHeaderKey(CanonicalHeaderKey(s)) == CanonicalHeaderKey(s)
  {
    var r := CanonicalHeaderKey(s);
    if IsToken(s) {
      assert IsToken(r) by {
        forall i | 0 <= i < |r| ensures IsTokenChar(r[i]) {
          assert IsTokenChar(s[i]);
        }
      }
      forall i | 0 <= i < |r|
        ensures CanonicalHeaderKey(r)[i] == r[i]
      {
        assert i > 0 ==> (r[i - 1] == '-' <==> s[i - 1] == '-');
      }
    }
  }

  lemma LowerOfCase(c: char)
    ensures LowerChar(UpperChar(c)) == LowerChar(c) && LowerChar(LowerChar(c)) == LowerChar(c)
  {
  }

  /** Canonicalisation only changes the case of letters. */
  lemma CanonicalSameLower(s: string)
    ensures ToLower(CanonicalHeaderKey(s)) == ToLower(s)
  {
    var r := CanonicalHeaderKey(s);
    if IsToken(s) {
      forall i | 0 <= i < |s| ensures ToLower(r)[i] == ToLower(s)[i] {
        LowerOfCase(s[i]);
      }
    }
  }

  /** validMethod of net/http: a non-empty token. */
  predicate ValidMethod(verb: string)
    ensures ValidMethod(verb) ==> verb != "" && IsAscii(verb) && ' ' !in verb && '\n' !in verb
  {
    |verb| > 0 && IsToken(verb)
  }

  datatype RequestError =
    | InvalidMethod(verb: string)   // "net/http: invalid method"
    | BadUrl(cause: UrlError)         // the error of url.Parse

  /**
   * The checks of http.NewRequestWithContext: an empty method means GET, an invalid method
   * is refused before the URL is parsed, and the URL must parse.
   */
  function RequestLine(verb: string, rawUrl: string): (r: Result<(string, Url), RequestError>)
    ensures r.Err? <==> (verb != "" && !ValidMethod(verb)) || ParseUrl(rawUrl).Err?
    ensures verb != "" && !ValidMethod(verb) ==> r == Err(InvalidMethod(verb))
    ensures r.Ok? ==> r.value.0 == (if verb == "" then "GET" else verb) && ValidMethod(r.value.0)
    ensures r.Ok? ==> r.value.1 == ParseUrl(rawUrl).value
  {
    var m := if verb == "" then "GET" else verb;
    if !ValidMethod(m) then Err(InvalidMethod(verb))
    else
      match ParseUrl(rawUrl)
      case Err(e) => Err(BadUrl(e))
      case Ok(u) => Ok((m, u))
  }

  /** What the transport sees of a request: its line, its body and its header at send time. */
  datatype Outgoing = Outgoing(verb: string, url: Url, body: Option<Bytes>, header: map<string, string>)

  /** The keys a header map gets from Header.Set of each key of `keys`. */
  function CanonicalKeys(keys: set<string>): set<string> {
    set k | k in keys :: CanonicalHeaderKey(k)
  }

  /**
   * The header `after` is what Header.Set of the entries of `m` under `keys`, in some order,
   * makes of `before`: every canonical key holds the value of one of the keys that map to
   * it, and every other key is untouched. Which one wins follows Go's map order, which is
   * not fixed.
   */
  ghost predicate SetFrom(before: map<string, string>, m: map<string, string>, keys: set<string>,
                          after: map<string, string>)
    requires keys <= m.Keys
  {
    && after.Keys == before.Keys + CanonicalKeys(keys)
    && (forall h :: h in after && h !in CanonicalKeys(keys) ==> after[h] == before[h])
    && (forall h :: h in CanonicalKeys(keys) ==>
          exists k :: k in keys && CanonicalHeaderKey(k) == h && after[h] == m[k])
  }

  /** An *http.Request: a fixed method, URL and body, and a header map set in place. */
  class Request {
    const verb: string
    const url: Url
    const body: Option<Bytes>
    var header: map<string, string>

    constructor(verb: string, url: Url, body: Option<Bytes>)
      ensures this.verb == verb && this.url == url && this.body == body
      ensures header == map[]
    {
      this.verb := verb;
      this.url := url;
      this.body := body;
      header := map[];
    }

    /** Header.Set: the canonical key is bound to the one value. */
    method Set(key: string, value: string)
      modifies this
      ensures header == old(header)[CanonicalHeaderKey(key) := value]
    {
      header := header[CanonicalHeaderKey(key) := value];
    }

    /** `for k, v := range m { req.Header.Set(k, v) }`, in whatever order the map yields. */
    method SetAll(m: map<string, string>)
      modifies this
      ensures SetFrom(old(header), m, m.Keys, header)
    {
      var todo := m.Keys;
      ghost var done: set<string> := {};
      while todo != {}
        invariant todo <= m.Keys && done == m.Keys - todo
        invariant SetFrom(old(header), m, done, header)
        decreases |todo|
      {
        var k :| k in todo;
        ghost var prev := header;
        Set(k, m[k]);
        var c := CanonicalHeaderKey(k);
        forall h | h in CanonicalKeys(done + {k})
          ensures exists k' :: k' in done + {k} && CanonicalHeaderKey(k') == h && header[h] == m[k']
        {
          if h != c {
            var k' :| k' in done && CanonicalHeaderKey(k') == h && prev[h] == m[k'];
          }
        }
        todo := todo - {k};
        done := done + {k};
      }
    }

    function Snapshot(): (o: Outgoing)
      reads this
      ensures o.header == header
    {
      Outgoing(verb, url, body, header)
    }
  }

  /** The body a request carries: a nil or zero-length body becomes http.NoBody, that is no body. */
  function SentBody(body: Option<Bytes>): (b: Option<Bytes>)
    ensures b.None? <==> body.None? || |body.value| == 0
    ensures b.Some? ==> b == body
  {
    if body.Some? && |body.value| > 0 then body else None
  }

  /** http.NewRequestWithContext: an empty header, or the reason the request cannot be made. */
  method NewRequest(verb: string, rawUrl: string, body: Option<Bytes>) returns (r: Result<Request, RequestError>)
    ensures r.Err? <==> RequestLine(verb, rawUrl).Err?
    ensures r.Err? ==> r.error == RequestLine(verb, rawUrl).error
    ensures r.Ok? ==> fresh(r.value) && r.value.header == map[] && r.value.body == SentBody(body)
                      && (r.value.verb, r.value.url) == RequestLine(verb, rawUrl).value
  {
    match RequestLine(verb, rawUrl)
    case Err(e) => r := Err(e);
    case Ok((m, u)) =>
      var req := new Request(m, u, SentBody(body));
      r := Ok(req);
  }

  /**
   * Setting `first` and then `second` on a header: a key of `second` holds a value given by
   * `second`, a key only `first` canonicalises to holds a value given by `first`, and when no
   * two keys of `second` share a canonical form each of them wins outright.
   */
  lemma LaterSetWins(h0: map<string, string>, first: map<string, string>, h1: map<string, string>,
                     second: map<string, string>, h2: map<string, string>)
    requires SetFrom(h0, first, first.Keys, h1) && SetFrom(h1, second, second.Keys, h2)
    ensures h2.Keys == h0.Keys + CanonicalKeys(first.Keys) + CanonicalKeys(second.Keys)
    ensures forall h :: h in CanonicalKeys(second.Keys) ==>
              exists k :: k in second && CanonicalHeaderKey(k) == h && h2[h] == second[k]
    ensures forall h :: h in CanonicalKeys(first.Keys) && h !in CanonicalKeys(second.Keys) ==>
              exists k :: k in first && CanonicalHeaderKey(k) == h && h2[h] == first[k]
    ensures (forall k, k' :: k in second && k' in second && CanonicalHeaderKey(k) == CanonicalHeaderKey(k') ==> k == k')
            ==> forall k :: k in second ==> h2[CanonicalHeaderKey(k)] == second[k]
  {
    if forall k, k' :: k in second && k' in second && CanonicalHeaderKey(k) == CanonicalHeaderKey(k') ==> k == k' {
      SetFromWins(h1, second, h2);
    }
  }

  /** When no two keys of `m` share a canonical form, each of them is set to its own value. */
  lemma SetFromWins(before: map<string, string>, m: map<string, string>, after: map<string, string>)
    requires SetFrom(before, m, m.Keys, after)
    requires forall k, k' :: k in m && k' in m && CanonicalHeaderKey(k) == CanonicalHeaderKey(k') ==> k == k'
    ensures forall k :: k in m ==> after[CanonicalHeaderKey(k)] == m[k]
  {
    forall k | k in m ensures after[CanonicalHeaderKey(k)] == m[k] {
      var h := CanonicalHeaderKey(k);
      assert h in CanonicalKeys(m.Keys);
      var k' :| k' in m && CanonicalHeaderKey(k') == h && after[h] == m[k'];
    }
  }

  /** A key that is a token and already has the canonical case. */
  predicate IsCanonical(s: string) {
    IsToken(s) && forall i :: 0 <= i < |s| ==> s[i] == (if StartsWord(s, i) then UpperChar(s[i]) else LowerChar(s[i]))
  }

  lemma CanonicalOfCanonical(s: string)
    requires IsCanonical(s)
    ensures CanonicalHeaderKey(s) == s
  {
  }

  lemma KnownKeyCanonical(s: string)
    requires s == "User-Agent" || s == "Accept" || s == "Content-Type" || s == "Authorization"
    ensures CanonicalHeaderKey(s) == s
  {
    assert IsToken(s) by {
      forall i | 0 <= i < |s| ensures IsTokenChar(s[i]) {
        assert IsAsciiLetter(s[i]) || s[i] == '-';
      }
    }
    CanonicalOfCanonical(s);
  }

  /** The header names the client sets itself are already in canonical form. */
  lemma KnownKeysCanonical()
    ensures CanonicalHeaderKey("User-Agent") == "User-Agent"
    ensures CanonicalHeaderKey("Accept") == "Accept"
    ensures CanonicalHeaderKey("Content-Type") == "Content-Type"
    ensures CanonicalHeaderKey("Authorization") == "Authorization"
  {
    KnownKeyCanonical("User-Agent");
    KnownKeyCanonical("Accept");
    KnownKeyCanonical("Content-Type");
    KnownKeyCanonical("Authorization");
  }
}
