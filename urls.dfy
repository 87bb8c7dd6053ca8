/**
 * The part of Go's net/url that buildURL and NewRestClient depend on: scheme detection
 * (section 3.1 of RFC 3986), the query/fragment split of url.Parse, URL.String, and the
 * form encoding of url.Values (QueryEscape, QueryUnescape, ParseQuery, Encode).
 */
module Urls {
  import opened Wrappers
  import opened Text
  import opened Utf8
  import ByteOrder

  datatype UrlError =
    | MissingProtocolScheme      // the text starts with ':'
    | InvalidControlCharacter    // a byte below 0x20 or 0x7f
    | InvalidEscape              // a '%' not followed by two hex digits

  /** A parsed URL; everything between the scheme and the query is kept as written. */
  datatype Url = Url(scheme: string, rest: string, rawQuery: string, forceQuery: bool, fragment: string)

  /** letters, digits, '+', '-' and '.': the characters of a scheme after its first. */
  predicate IsSchemeChar(c: char) {
    IsAsciiLetter(c) || IsAsciiDigit(c) || c == '+' || c == '-' || c == '.'
  }

  /** scheme = ALPHA *( ALPHA / DIGIT / "+" / "-" / "." ), section 3.1 of RFC 3986. */
  predicate IsSchemeName(s: string) {
    |s| > 0 && IsAsciiLetter(s[0]) && forall i :: 0 <= i < |s| ==> IsSchemeChar(s[i])
  }

  /** `raw` begins with a scheme name followed by ':'. */
  ghost predicate HasScheme(raw: string) {
    exists i :: 0 < i < |raw| && raw[i] == ':' && IsSchemeName(raw[..i])
  }

  /** The scan of getScheme from index i on, given that raw[..i] is a scheme name so far. */
  function ScanScheme(raw: string, i: nat): (r: Result<(string, string), UrlError>)
    requires i <= |raw|
    requires i > 0 ==> IsSchemeName(raw[..i])
    ensures r.Err? <==> i == 0 && |raw| > 0 && raw[0] == ':'
    ensures r.Ok? && r.value.0 != "" ==>
              IsSchemeName(r.value.0) && raw == r.value.0 + ":" + r.value.1
    ensures r.Ok? && r.value.0 == "" ==> r.value.1 == raw
    decreases |raw| - i
  {
    if i == |raw| then Ok(("", raw))
    else
      var c := raw[i];
      if IsAsciiLetter(c) then
        assert raw[..i + 1] == raw[..i] + [c];
        ScanScheme(raw, i + 1)
      else if IsAsciiDigit(c) || c == '+' || c == '-' || c == '.' then
        if i == 0 then Ok(("", raw))
        else
          assert raw[..i + 1] == raw[..i] + [c];
          ScanScheme(raw, i + 1)
      else if c == ':' then
        if i == 0 then Err(MissingProtocolScheme)
        else
          assert raw == raw[..i] + ":" + raw[i + 1..];
          Ok((raw[..i], raw[i + 1..]))
      else Ok(("", raw))
  }

  /** getScheme of net/url: the scheme before the first ':' if every character before it may form one. */
  function GetScheme(raw: string): (r: Result<(string, string), UrlError>)
    ensures r.Err? <==> |raw| > 0 && raw[0] == ':'
    ensures r.Ok? && r.value.0 != "" ==>
              IsSchemeName(r.value.0) && raw == r.value.0 + ":" + r.value.1
    ensures r.Ok? && r.value.0 == "" ==> r.value.1 == raw
  {
    ScanScheme(raw, 0)
  }

  /** The scan sees a scheme exactly when the text starts with `scheme ":"`. */
  lemma {:induction false} ScanSchemeComplete(raw: string, i: nat, j: nat)
    requires 0 < j < |raw| && raw[j] == ':' && IsSchemeName(raw[..j])
    requires i <= j
    requires i > 0 ==> IsSchemeName(raw[..i])
    ensures ScanScheme(raw, i) == Ok((raw[..j], raw[j + 1..]))
    decreases j - i
  {
    assert forall k :: 0 <= k < j ==> raw[k] == raw[..j][k];
    if i < j {
      assert raw[..i + 1] == raw[..i] + [raw[i]];
      ScanSchemeComplete(raw, i + 1, j);
    }
  }

  lemma GetSchemeIff(raw: string)
    ensures GetScheme(raw).Ok? && GetScheme(raw).value.0 != "" <==> HasScheme(raw)
  {
    if HasScheme(raw) {
      var j :| 0 < j < |raw| && raw[j] == ':' && IsSchemeName(raw[..j]);
      ScanSchemeComplete(raw, 0, j);
    }
    var r := GetScheme(raw);
    if r.Ok? && r.value.0 != "" {
      var j := |r.value.0|;
      assert raw[..j] == r.value.0 && raw[j] == ':';
    }
  }

  /** Without a ':' there is no scheme and the text is all rest. */
  lemma {:induction false} NoColonScan(raw: string, i: nat)
    requires i <= |raw| && ':' !in raw
    requires i > 0 ==> IsSchemeName(raw[..i])
    ensures ScanScheme(raw, i) == Ok(("", raw))
    decreases |raw| - i
  {
    if i < |raw| {
      var c := raw[i];
      if IsAsciiLetter(c) || (i > 0 && (IsAsciiDigit(c) || c == '+' || c == '-' || c == '.')) {
        assert raw[..i + 1] == raw[..i] + [c];
        NoColonScan(raw, i + 1);
      }
    }
  }

  lemma NoColonNoScheme(raw: string)
    requires ':' !in raw
    ensures GetScheme(raw) == Ok(("", raw))
  {
    NoColonScan(raw, 0);
  }

  /** stringContainsCTLByte of net/url. */
  predicate HasControl(s: string) {
    exists i :: 0 <= i < |s| && (s[i] < ' ' || s[i] as int == 0x7f)
  }

  /**
   * url.Parse, keeping host and path verbatim: the fragment is cut off at the first '#',
   * control characters are refused, the scheme is read and lower-cased, and a single
   * trailing '?' marks an empty forced query; otherwise the query follows the first '?'.
   * A fragment with a malformed %-escape is refused; it is kept in its escaped form.
   */
  function ParseUrl(raw: string): (r: Result<Url, UrlError>)
    ensures r.Err? <==> (var c := Cut(raw, '#');
                         HasControl(c.0) || (|c.0| > 0 && c.0[0] == ':') || !WellEscaped(Encode(c.1)))
    ensures r.Ok? ==> r.value.scheme == ToLower(r.value.scheme)
    ensures r.Ok? ==> r.value.fragment == Cut(raw, '#').1
  {
    var c := Cut(raw, '#');
    if HasControl(c.0) then Err(InvalidControlCharacter)
    else
      var g := GetScheme(c.0);
      if g.Err? then Err(g.error)
      else if !WellEscaped(Encode(c.1)) then Err(InvalidEscape)
      else
        var lower := ToLower(g.value.0);
        ToLowerIdempotent(g.value.0);
        var p := ParseRest(g.value.1);
        Ok(Url(lower, p.0, p.1, p.2, c.1))
  }

  lemma ToLowerIdempotent(s: string)
    ensures ToLower(ToLower(s)) == ToLower(s)
  {
  }

  /** A text whose only '?' is its last character: url.Parse keeps the query forced and empty. */
  predicate ForcesQuery(rest: string) {
    IsSuffix("?", rest) && Count(rest, '?') == 1
  }

  /** The query split of url.Parse: a lone trailing '?' forces an empty query, else the first '?' splits. */

  function ParseRest(rest: string): (string, string, bool) {
    if ForcesQuery(rest) then (rest[..|rest| - 1], "", true)
    else
      var (path, query, _) := Cut(rest, '?');
      (path, query, false)
  }

  /** URL.String. */
  function UrlString(u: Url): string {
    (if u.scheme != "" then u.scheme + ":" else "")
    + u.rest
    + (if u.forceQuery || u.rawQuery != "" then "?" + u.rawQuery else "")
    + (if u.fragment != "" then "#" + u.fragment else "")
  }

  /** A printed URL starts with its scheme and ':', ends with '#' and its fragment, and has no '?' without a query. */
  lemma UrlStringParts(u: Url)
    ensures var r := UrlString(u);
      && (u.scheme != "" ==> |r| > |u.scheme| && r[..|u.scheme| + 1] == u.scheme + ":")
      && (u.fragment != "" ==> |r| > |u.fragment| && r[|r| - |u.fragment| - 1..] == "#" + u.fragment)
      && (u.fragment == "" && !u.forceQuery && u.rawQuery == "" ==>
            r == (if u.scheme != "" then u.scheme + ":" else "") + u.rest)
  {
    var head := if u.scheme != "" then u.scheme + ":" else "";
    var q := if u.forceQuery || u.rawQuery != "" then "?" + u.rawQuery else "";
    var tail := if u.fragment != "" then "#" + u.fragment else "";
    var r := UrlString(u);
    assert r == head + (u.rest + q + tail);
    assert r == (head + u.rest + q) + tail;
  }

  /** A '#' that is present is followed by a non-empty fragment. */
  predicate FragmentNonEmptyIfPresent(raw: string) {
    var c := Cut(raw, '#');
    c.2 ==> c.1 != ""
  }

  lemma CountSplit(a: string, b: string, c: char)
    ensures Count(a + b, c) == Count(a, c) + Count(b, c)
  {
    assert multiset(a + b) == multiset(a) + multiset(b);
  }

  /** The query split of url.Parse, printed again, is the text it came from. */
  lemma QuerySplitRoundTrip(rest: string)
    ensures var u := ParseRest(rest);
      u.0 + (if u.2 || u.1 != "" then "?" + u.1 else "") == rest
  {
    var c := Cut(rest, '?');
    if c.2 && c.1 == "" {
      OnlyMarkAtEnd(rest);
      ForcedQueryRoundTrip(rest);
    } else if ForcesQuery(rest) {
      ForcedQueryRoundTrip(rest);
    } else {
      CutQueryRoundTrip(rest);
    }
  }

  /** A single '?' at the very end is the forced-query case of url.Parse. */
  lemma ForcedQueryRoundTrip(rest: string)
    requires ForcesQuery(rest)
    ensures var u := ParseRest(rest);
      u.0 + (if u.2 || u.1 != "" then "?" + u.1 else "") == rest
  {
    assert ParseRest(rest) == (rest[..|rest| - 1], "", true);
    assert rest == rest[..|rest| - 1] + "?";
  }

  /** When the first '?' has nothing after it, it is the only one and it ends the text. */
  lemma OnlyMarkAtEnd(rest: string)
    requires Cut(rest, '?').2 && Cut(rest, '?').1 == ""
    ensures ForcesQuery(rest)
  {
    var c := Cut(rest, '?');
    assert rest == c.0 + "?";
    CountSplit(c.0, "?", '?');
  }

  /** Any other text is cut at its first '?', which, when present, has a non-empty query after it. */
  lemma CutQueryRoundTrip(rest: string)
    requires !ForcesQuery(rest)
    requires Cut(rest, '?').2 ==> Cut(rest, '?').1 != ""
    ensures var u := ParseRest(rest);
      u.0 + (if u.2 || u.1 != "" then "?" + u.1 else "") == rest
  {
    var c := Cut(rest, '?');
    assert ParseRest(rest) == (c.0, c.1, false);
    if c.2 {
      ConcatAssoc(c.0, "?", c.1);
    }
  }

  /** Cutting at the first '#' and gluing back a non-empty fragment restores the text. */
  lemma FragmentRoundTrip(raw: string)
    requires FragmentNonEmptyIfPresent(raw)
    ensures var c := Cut(raw, '#'); raw == c.0 + (if c.1 != "" then "#" + c.1 else "")
  {
    var c := Cut(raw, '#');
    if c.2 {
      ConcatAssoc(c.0, "#", c.1);
    }
  }

  /** A scheme read by getScheme, printed again with its ':', restores the text. */
  lemma SchemeRoundTrip(u: string)
    requires GetScheme(u).Ok?
    ensures var g := GetScheme(u).value; u == (if g.0 != "" then g.0 + ":" else "") + g.1
  {
  }

  /** Parsing and printing give back the text when the scheme is lower case and no fragment is empty. */
  lemma ParsePrintRoundTrip(raw: string)
    requires ParseUrl(raw).Ok?
    requires FragmentNonEmptyIfPresent(raw)
    requires var s := GetScheme(Cut(raw, '#').0); s.Ok? && ToLower(s.value.0) == s.value.0
    ensures UrlString(ParseUrl(raw).value) == raw
  {
    var c := Cut(raw, '#');
    var g := GetScheme(c.0).value;
    var p := ParseRest(g.1);
    var u := Url(g.0, p.0, p.1, p.2, c.1);
    assert ParseUrl(raw) == Ok(u);
    var head := if g.0 != "" then g.0 + ":" else "";
    var q := if p.2 || p.1 != "" then "?" + p.1 else "";
    var tail := if c.1 != "" then "#" + c.1 else "";
    assert UrlString(u) == head + p.0 + q + tail;
    QuerySplitRoundTrip(g.1);
    SchemeRoundTrip(c.0);
    FragmentRoundTrip(raw);
    ConcatAssoc(head, p.0, q);
    assert head + p.0 + q == c.0;
  }

  lemma ConcatAssoc(a: string, b: string, c: string)
    ensures a + b + c == a + (b + c)
  {
  }

  // ----- form encoding of query components -----

  /** Characters QueryEscape leaves as they are: ALPHA / DIGIT / "-" / "_" / "." / "~". */
  predicate IsUnreserved(b: byte) {
    ('a' as byte <= b <= 'z' as byte) || ('A' as byte <= b <= 'Z' as byte) || ('0' as byte <= b <= '9' as byte)
    || b == '-' as byte || b == '_' as byte || b == '.' as byte || b == '~' as byte
  }

  /** An upper-case hexadecimal digit, as QueryEscape writes it. */
  function HexDigit(n: nat): (c: char)
    requires n < 16
  {
    if n < 10 then ('0' as int + n) as char else ('A' as int + n - 10) as char
  }

  function EscapeByte(b: byte): (r: string)
    ensures IsAscii(r)
  {
    if IsUnreserved(b) then [b as int as char]
    else if b == ' ' as byte then "+"
    else ['%', HexDigit(b as int / 16), HexDigit(b as int % 16)]
  }

  /** url.QueryEscape of the bytes of a string. */
  function QueryEscape(b: Bytes): (r: string)
    ensures IsAscii(r)
  {
    if |b| == 0 then "" else EscapeByte(b[0]) + QueryEscape(b[1..])
  }

  predicate IsHex(b: byte) {
    ('0' as byte <= b <= '9' as byte) || ('a' as byte <= b <= 'f' as byte) || ('A' as byte <= b <= 'F' as byte)
  }

  function HexValue(b: byte): (n: nat)
    requires IsHex(b)
    ensures n < 16
  {
    if b <= '9' as byte then (b - '0' as byte) as nat
    else if b <= 'F' as byte then (b - 'A' as byte) as nat + 10
    else (b - 'a' as byte) as nat + 10
  }

  /** Every '%' is followed by two hexadecimal digits: the escapes unescape accepts. */
  predicate WellEscaped(b: Bytes) {
    forall i :: 0 <= i < |b| && b[i] == '%' as byte ==> i + 2 < |b| && IsHex(b[i + 1]) && IsHex(b[i + 2])
  }

  /** Whether bytes are well escaped is decided one character or one escape at a time. */
  lemma WellEscapedStep(b: Bytes)
    requires |b| > 0
    ensures b[0] != '%' as byte ==> (WellEscaped(b) <==> WellEscaped(b[1..]))
    ensures b[0] == '%' as byte && |b| >= 3 && IsHex(b[1]) && IsHex(b[2]) ==> (WellEscaped(b) <==> WellEscaped(b[3..]))
    ensures b[0] == '%' as byte && !(|b| >= 3 && IsHex(b[1]) && IsHex(b[2])) ==> !WellEscaped(b)
  {
    var k := if b[0] == '%' as byte then 3 else 1;
    if k <= |b| && (k == 1 || (IsHex(b[1]) && IsHex(b[2]))) {
      if WellEscaped(b[k..]) {
        forall i | 0 <= i < |b| && b[i] == '%' as byte
          ensures i + 2 < |b| && IsHex(b[i + 1]) && IsHex(b[i + 2])
        {
          if i >= k {
            assert b[k..][i - k] == b[i];
          }
        }
      }
      if WellEscaped(b) {
        forall j | 0 <= j < |b[k..]| && b[k..][j] == '%' as byte
          ensures j + 2 < |b[k..]| && IsHex(b[k..][j + 1]) && IsHex(b[k..][j + 2])
        {
          assert b[j + k] == '%' as byte;
        }
      }
    }
  }

  /** url.QueryUnescape: '+' is a space, %XX a byte; a malformed escape is an error. */
  function QueryUnescape(b: Bytes): (r: Result<Bytes, UrlError>)
    ensures r.Err? <==> !WellEscaped(b)
    ensures r.Err? ==> r.error == InvalidEscape
    ensures r.Ok? ==> |r.value| <= |b|
  {
    if |b| == 0 then Ok([])
    else
      WellEscapedStep(b);
      if b[0] == '%' as byte then
        if |b| < 3 || !IsHex(b[1]) || !IsHex(b[2]) then Err(InvalidEscape)
        else
          match QueryUnescape(b[3..])
          case Err(e) => Err(e)
          case Ok(t) => Ok([(HexValue(b[1]) * 16 + HexValue(b[2])) as byte] + t)
      else
        match QueryUnescape(b[1..])
        case Err(e) => Err(e)
        case Ok(t) => Ok([if b[0] == '+' as byte then ' ' as byte else b[0]] + t)
  }

  lemma EncodeConcat(s: string, t: string)
    ensures Encode(s + t) == Encode(s) + Encode(t)
  {
    if |s| > 0 {
      assert (s + t)[1..] == s[1..] + t;
      EncodeConcat(s[1..], t);
    } else {
      assert s + t == t;
    }
  }

  /** The bytes `x` in front of the outcome of unescaping the rest. */
  function PrependOk(x: Bytes, r: Result<Bytes, UrlError>): Result<Bytes, UrlError> {
    match r
    case Ok(t) => Ok(x + t)
    case Err(e) => Err(e)
  }

  /** Unescaping one escaped byte followed by anything yields that byte in front. */
  lemma UnescapeEscapedByte(b: byte, t: Bytes)
    ensures QueryUnescape(Encode(EscapeByte(b)) + t) == PrependOk([b], QueryUnescape(t))
  {
    var s := EscapeByte(b);
    EncodeAscii(s);
    var e := Encode(s) + t;
    if IsUnreserved(b) {
      assert Encode(s) == [b];
      assert e[1..] == t;
    } else if b == ' ' as byte {
      assert Encode(s) == ['+' as byte];
      assert e[1..] == t;
    } else {
      var hi, lo := b as int / 16, b as int % 16;
      assert e[0] == '%' as byte;
      assert e[1] as int == HexDigit(hi) as int && e[2] as int == HexDigit(lo) as int;
      assert IsHex(e[1]) && HexValue(e[1]) == hi;
      assert IsHex(e[2]) && HexValue(e[2]) == lo;
      assert e[3..] == t;
    }
  }

  /** Unescaping what QueryEscape produced gives back the original bytes. */
  lemma {:induction false} QueryEscapeRoundTrip(b: Bytes)
    ensures QueryUnescape(Encode(QueryEscape(b))) == Ok(b)
  {
    if |b| > 0 {
      var head, tail := EscapeByte(b[0]), QueryEscape(b[1..]);
      EncodeConcat(head, tail);
      UnescapeEscapedByte(b[0], Encode(tail));
      QueryEscapeRoundTrip(b[1..]);
      assert b == [b[0]] + b[1..];
    }
  }

  /** QueryEscape leaves letters, digits and "-_.~" as they are. */
  lemma {:induction false} QueryEscapeUnreserved(s: string)
    requires IsAscii(s)
    requires forall i :: 0 <= i < |s| ==> IsUnreserved(s[i] as int as byte)
    ensures QueryEscape(Encode(s)) == s
  {
    if |s| > 0 {
      EncodeAscii(s);
      assert Encode(s) == EncodeChar(s[0]) + Encode(s[1..]);
      assert Encode(s)[1..] == Encode(s[1..]);
      assert IsAscii(s[1..]) by {
        forall i | 0 <= i < |s[1..]| ensures s[1..][i] as int < 0x80 { assert s[1..][i] == s[i + 1]; }
      }
      QueryEscapeUnreserved(s[1..]);
      assert s == [s[0]] + s[1..];
    }
  }

  // ----- url.Values -----

  type Values = map<Bytes, seq<Bytes>>

  function ValuesAt(v: Values, k: Bytes): seq<Bytes> {
    if k in v then v[k] else []
  }

  /** One "key=value" piece of a query, as ParseQuery handles it. */
  function AddPiece(m: Values, piece: Bytes): (r: Values)
    ensures m.Keys <= r.Keys
    ensures forall k :: k in m ==> m[k] <= r[k]
    ensures ';' as byte in piece || piece == [] ==> r == m
    ensures var (k, v, _) := Cut(piece, '=' as byte); QueryUnescape(k).Err? || QueryUnescape(v).Err? ==> r == m
    ensures r == m || exists key, value :: r == m[key := ValuesAt(m, key) + [value]]
  {
    if ';' as byte in piece || piece == [] then m
    else
      var (k, v, _) := Cut(piece, '=' as byte);
      match (QueryUnescape(k), QueryUnescape(v))
      case (Ok(key), Ok(value)) => m[key := ValuesAt(m, key) + [value]]
      case _ => m
  }

  /** The loop of url.ParseQuery over the '&'-separated pieces; bad pieces are skipped. */
  function ParsePieces(q: Bytes, m: Values): (r: Values)
    ensures m.Keys <= r.Keys
    ensures forall k :: k in m ==> m[k] <= r[k]
    decreases |q|
  {
    if |q| == 0 then m
    else
      var (piece, rest, _) := Cut(q, '&' as byte);
      ParsePieces(rest, AddPiece(m, piece))
  }

  /** URL.Query: the values of a raw query, ignoring the pieces ParseQuery rejects. */
  function Query(rawQuery: string): (r: Values)
    ensures rawQuery == "" ==> r == map[]
  {
    ParsePieces(Encode(rawQuery), map[])
  }

  lemma EncodeInjectiveAll()
    ensures forall s, t {:trigger Encode(s), Encode(t)} :: Encode(s) == Encode(t) ==> s == t
  {
    forall s, t | Encode(s) == Encode(t) ensures s == t { EncodeInjective(s, t); }
  }

  /** The values one call of Values.Add per parameter gives to the parameters' keys. */
  function Added(values: Values, params: map<string, string>): (r: Values)
    ensures forall k :: k in params ==>
              Encode(k) in r && r[Encode(k)] == ValuesAt(values, Encode(k)) + [Encode(params[k])]
    ensures forall key :: key in r ==> exists k :: k in params && Encode(k) == key
  {
    EncodeInjectiveAll();
    map k | k in params :: Encode(k) := ValuesAt(values, Encode(k)) + [Encode(params[k])]
  }

  /** Values.Add for every entry of a map of parameters, in any order. */
  function AddParams(values: Values, params: map<string, string>): (r: Values)
    ensures forall k :: k in params ==>
              Encode(k) in r && r[Encode(k)] == ValuesAt(values, Encode(k)) + [Encode(params[k])]
    ensures forall key :: key in r ==> key in values || exists k :: k in params && Encode(k) == key
    ensures forall key :: key in values ==> key in r
    ensures forall key :: key in values && (forall k :: k in params ==> Encode(k) != key) ==> r[key] == values[key]
  {
    values + Added(values, params)
  }

  /** After adding the parameters, each parameter's value is among the values of its key. */
  lemma AddParamsHasValue(values: Values, params: map<string, string>, k: string)
    requires k in params
    ensures var r := AddParams(values, params); Encode(k) in r && Encode(params[k]) in r[Encode(k)]
  {
    var r := AddParams(values, params);
    assert r[Encode(k)][|r[Encode(k)]| - 1] == Encode(params[k]);
  }

  /** The "k=v" pieces of one key, in the order of its values. */
  function KeyItems(k: Bytes, vs: seq<Bytes>): (r: seq<string>)
    ensures |r| == |vs|
    ensures forall i :: 0 <= i < |vs| ==> r[i] == QueryEscape(k) + "=" + QueryEscape(vs[i])
  {
    if |vs| == 0 then [] else [QueryEscape(k) + "=" + QueryEscape(vs[0])] + KeyItems(k, vs[1..])
  }

  function ItemsFor(keys: seq<Bytes>, v: Values): seq<string>
    requires forall i :: 0 <= i < |keys| ==> keys[i] in v
  {
    if |keys| == 0 then [] else KeyItems(keys[0], v[keys[0]]) + ItemsFor(keys[1..], v)
  }

  /** The pieces Values.Encode writes: keys in sorted order, each key's values in order. */
  function Items(v: Values): seq<string> {
    ItemsFor(ByteOrder.Sorted(v.Keys), v)
  }

  /** Values.Encode: the pieces joined with '&'. */
  function EncodeValues(v: Values): (r: string)
    ensures v == map[] ==> r == ""
  {
    Join(Items(v), '&')
  }

  lemma {:induction false} ItemsForHasPair(keys: seq<Bytes>, v: Values, i: nat, x: Bytes)
    requires forall j :: 0 <= j < |keys| ==> keys[j] in v
    requires i < |keys| && x in v[keys[i]]
    ensures QueryEscape(keys[i]) + "=" + QueryEscape(x) in ItemsFor(keys, v)
  {
    if i == 0 {
      var n :| 0 <= n < |v[keys[0]]| && v[keys[0]][n] == x;
      assert KeyItems(keys[0], v[keys[0]])[n] == QueryEscape(keys[0]) + "=" + QueryEscape(x);
    } else {
      ItemsForHasPair(keys[1..], v, i - 1, x);
    }
  }

  /** Every value of every key is written as "key=value" into the encoded query. */
  lemma EncodeHasPair(v: Values, k: Bytes, x: Bytes)
    requires k in v && x in v[k]
    ensures Contains(EncodeValues(v), QueryEscape(k) + "=" + QueryEscape(x))
  {
    var keys := ByteOrder.Sorted(v.Keys);
    var i :| 0 <= i < |keys| && keys[i] == k;
    ItemsForHasPair(keys, v, i, x);
    var items := Items(v);
    var n :| 0 <= n < |items| && items[n] == QueryEscape(k) + "=" + QueryEscape(x);
    JoinContainsItem(items, '&', n);
  }
}
