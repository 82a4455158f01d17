/** The plain-HTTP fetcher of fetch/fetcher.go and fetch/basefetcher.go:
    request URL normalisation, form-data parsing, the choice between a
    body-less request and a form POST, the mapping of HTTP status codes
    (section 15 of RFC 9110) to typed errors, fetcher construction, the
    cookie-jar accessors and the cache bookkeeping of a fetched response.

    Foreign code appears as parameters: `url.ParseRequestURI` as `validURI`,
    `http.NewRequest`'s own validation as `newRequestOk`, `url.Values.Encode`
    as `encode`, and `http.Client.Do` as `send`, which answers a status code
    or None for a transport failure. */
module Fetchers {
  import opened Base

  // ---------------------------------------------------------------------
  // Requests

  /** fetch.Request */
  datatype Request = Request(
    kind: string,
    url: string,
    httpMethod: string,
    formData: string,
    userToken: string,
    infiniteScroll: bool)

  /** Request.getURL: trim surrounding whitespace, then strip every
      trailing "/". */
  function GetURL(r: Request): (u: string)
    ensures u == [] || u[|u| - 1] != '/'
    ensures u == [] || !IsSpace(u[0])
  {
    TrimRightChar(TrimSpace(r.url), '/')
  }

  /** fetch.BaseFetcherRequest */
  datatype BaseFetcherRequest = BaseFetcherRequest(url: string, httpMethod: string)

  /** BaseFetcherRequest.GetURL: strip trailing "/" first, then trim
      whitespace (the opposite order to Request.getURL). */
  function BaseGetURL(r: BaseFetcherRequest): string
  {
    TrimSpace(TrimRightChar(r.url, '/'))
  }

  /** TrimSpace leaves no whitespace at either end. */
  lemma TrimSpaceEnds(s: string)
    ensures TrimSpace(s) == [] || (!IsSpace(TrimSpace(s)[0]) && !IsSpace(TrimSpace(s)[|TrimSpace(s)| - 1]))
  {
    var l := TrimLeftSpace(s);
    var r := TrimRightSpace(l);
    if r != [] {
      assert r[0] == l[0];
    }
  }

  /** The result of BaseFetcherRequest.GetURL has no whitespace at either end. */
  lemma BaseGetURLTrimmed(r: BaseFetcherRequest)
    ensures var u := BaseGetURL(r); u == [] || (!IsSpace(u[0]) && !IsSpace(u[|u| - 1]))
  {
    TrimSpaceEnds(TrimRightChar(r.url, '/'));
  }

  /** The two normalisations disagree on a URL ending in "/ ": the
      BaseFetcherRequest keeps the "/", the Request drops it. */
  lemma GetURLOrderMatters(x: string)
    requires x != [] && !IsSpace(x[0]) && !IsSpace(x[|x| - 1]) && x[|x| - 1] != '/'
    ensures BaseGetURL(BaseFetcherRequest(x + "/ ", "")) == x + "/"
    ensures GetURL(Request("", x + "/ ", "", "", "", false)) == x
  {
    var s := x + "/ ";
    assert s[0] == x[0] && s[|s| - 1] == ' ';
    assert TrimRightChar(s, '/') == s;
    assert TrimLeftSpace(s) == s;
    assert s[..|s| - 1] == x + "/";
    assert (x + "/")[|x|] == '/' && !IsSpace('/');
    assert TrimRightSpace(x + "/") == x + "/";
    assert TrimRightSpace(s) == x + "/";
    assert (x + "/")[..|x|] == x;
    assert TrimRightChar(x, '/') == x;
    assert TrimRightChar(x + "/", '/') == x;
  }

  datatype FetchError =
    | BadRequest(cause: string)
    | NotFound(url: string)
    | Forbidden(url: string)
    | Unauthorized
    | ProxyAuthenticationRequired
    | InternalServerError
    | BadGateway
    | GatewayTimeout
    | UnknownError(message: string)
    | RequestBuildError
    | Panic(message: string)

  /** BaseFetcherRequest.Validate: BadRequest exactly when the trimmed URL is
      not a valid request URI. */
  function Validate(r: BaseFetcherRequest, validURI: string -> bool): (e: Option<FetchError>)
    ensures e.None? <==> validURI(TrimSpace(r.url))
    ensures e.Some? ==> e.value.BadRequest?
  {
    if validURI(TrimSpace(r.url)) then None else Some(BadRequest("invalid request URI"))
  }

  // ---------------------------------------------------------------------
  // Form data

  type FormValues = map<string, seq<string>>

  /** url.Values.Add */
  function AddValue(vals: FormValues, k: string, v: string): (r: FormValues)
    ensures r.Keys == vals.Keys + {k}
    ensures r[k] == (if k in vals then vals[k] else []) + [v]
    ensures forall j :: j in vals && j != k ==> r[j] == vals[j]
  {
    vals[k := (if k in vals then vals[k] else []) + [v]]
  }

  /** Adds the `key=value` pairs left to right; a pair without "=" makes
      `kv[1]` index out of range, modelled as None (a panic). */
  function AddPairs(vals: FormValues, pairs: seq<string>): Option<FormValues>
    decreases |pairs|
  {
    if pairs == [] then Some(vals)
    else
      var kv := Split(pairs[0], '=');
      if |kv| < 2 then None else AddPairs(AddValue(vals, kv[0], kv[1]), pairs[1..])
  }

  /** What parseFormData computes: None when it panics. */
  function FormData(fd: string): Option<FormValues>
  {
    AddPairs(map[], Split(fd, '&'))
  }

  /** parseFormData, with its accumulation loop. */
  method ParseFormData(fd: string) returns (r: Option<FormValues>)
    ensures r == FormData(fd)
  {
    var formData: FormValues := map[];
    var pairs := Split(fd, '&');
    var i := 0;
    while i < |pairs|
      invariant 0 <= i <= |pairs|
      invariant AddPairs(formData, pairs[i..]) == FormData(fd)
    {
      var kv := Split(pairs[i], '=');
      assert pairs[i..][0] == pairs[i] && pairs[i..][1..] == pairs[i + 1..];
      if |kv| < 2 {
        return None;
      }
      formData := AddValue(formData, kv[0], kv[1]);
      i := i + 1;
    }
    return Some(formData);
  }

  /** The key and value a pair contributes: text after a second "=" is dropped. */
  function PairKey(p: string): string { Split(p, '=')[0] }

  function PairValue(p: string): string
    requires |Split(p, '=')| >= 2
  {
    Split(p, '=')[1]
  }

  predicate HasEquals(p: string) { |Split(p, '=')| >= 2 }

  /** The values a key accumulates, in pair order. */
  function ValuesFor(pairs: seq<string>, k: string): seq<string>
  {
    if pairs == [] then []
    else (if PairKey(pairs[0]) == k && HasEquals(pairs[0]) then [PairValue(pairs[0])] else []) + ValuesFor(pairs[1..], k)
  }

  lemma {:induction false} AddPairsDefined(vals: FormValues, pairs: seq<string>)
    ensures AddPairs(vals, pairs).Some? <==> forall p :: p in pairs ==> HasEquals(p)
    decreases |pairs|
  {
    if pairs != [] {
      var kv := Split(pairs[0], '=');
      assert forall p :: p in pairs <==> p == pairs[0] || p in pairs[1..];
      if |kv| >= 2 {
        AddPairsDefined(AddValue(vals, kv[0], kv[1]), pairs[1..]);
        assert HasEquals(pairs[0]);
        assert (forall p :: p in pairs ==> HasEquals(p)) <==> (forall p :: p in pairs[1..] ==> HasEquals(p));
      } else {
        assert !HasEquals(pairs[0]) && pairs[0] in pairs;
      }
    }
  }

  lemma {:induction false} AddPairsKeys(vals: FormValues, pairs: seq<string>)
    requires AddPairs(vals, pairs).Some?
    ensures forall k :: k in AddPairs(vals, pairs).value <==> k in vals || exists p :: p in pairs && PairKey(p) == k
    decreases |pairs|
  {
    if pairs != [] {
      var kv := Split(pairs[0], '=');
      var next := AddValue(vals, kv[0], kv[1]);
      AddPairsKeys(next, pairs[1..]);
      var m := AddPairs(vals, pairs).value;
      assert m == AddPairs(next, pairs[1..]).value;
      assert PairKey(pairs[0]) == kv[0];
      forall k ensures k in m <==> k in vals || exists p :: p in pairs && PairKey(p) == k
      {
        assert k in next <==> k in vals || k == kv[0];
        if exists p :: p in pairs && PairKey(p) == k {
          var p :| p in pairs && PairKey(p) == k;
          if p != pairs[0] {
            assert p in pairs[1..];
          }
        }
        if exists p :: p in pairs[1..] && PairKey(p) == k {
          var p :| p in pairs[1..] && PairKey(p) == k;
          assert p in pairs;
        }
      }
    }
  }

  lemma {:induction false} AddPairsValues(vals: FormValues, pairs: seq<string>)
    requires AddPairs(vals, pairs).Some?
    ensures forall k :: k in AddPairs(vals, pairs).value ==>
      AddPairs(vals, pairs).value[k] == (if k in vals then vals[k] else []) + ValuesFor(pairs, k)
    decreases |pairs|
  {
    if pairs != [] {
      var kv := Split(pairs[0], '=');
      var next := AddValue(vals, kv[0], kv[1]);
      AddPairsValues(next, pairs[1..]);
      var m := AddPairs(vals, pairs).value;
      assert m == AddPairs(next, pairs[1..]).value;
      forall k | k in m
        ensures m[k] == (if k in vals then vals[k] else []) + ValuesFor(pairs, k)
      {
        assert ValuesFor(pairs, k) == (if k == kv[0] then [kv[1]] else []) + ValuesFor(pairs[1..], k);
      }
    }
  }

  /** parseFormData succeeds exactly when every "&"-separated pair holds an
      "="; repeated keys then accumulate their values in order, and each
      key present came from some pair. */
  lemma FormDataAccumulates(fd: string)
    ensures FormData(fd).Some? <==> forall p :: p in Split(fd, '&') ==> HasEquals(p)
    ensures FormData(fd).Some? ==>
      forall k :: k in FormData(fd).value ==> FormData(fd).value[k] == ValuesFor(Split(fd, '&'), k)
    ensures FormData(fd).Some? ==>
      forall k :: k in FormData(fd).value <==> exists p :: p in Split(fd, '&') && PairKey(p) == k
  {
    AddPairsDefined(map[], Split(fd, '&'));
    if FormData(fd).Some? {
      AddPairsKeys(map[], Split(fd, '&'));
      AddPairsValues(map[], Split(fd, '&'));
    }
  }

  /** One `key=value` pair read off the front. */
  lemma AddPairsHead(vals: FormValues, p: string, rest: seq<string>)
    requires |Split(p, '=')| >= 2
    ensures AddPairs(vals, [p] + rest) == AddPairs(AddValue(vals, Split(p, '=')[0], Split(p, '=')[1]), rest)
  {
    assert ([p] + rest)[0] == p && ([p] + rest)[1..] == rest;
  }

  /** How "k=v1&k=v2=extra" splits into pairs and each pair into pieces. */
  lemma ExampleSplits(k: string, v1: string, v2: string, extra: string)
    requires '&' !in k && '=' !in k && '&' !in v1 && '=' !in v1 && '&' !in v2 && '=' !in v2 && '&' !in extra
    ensures Split(k + "=" + v1 + "&" + k + "=" + v2 + "=" + extra, '&') == [k + "=" + v1, k + "=" + (v2 + "=" + extra)]
    ensures Split(k + "=" + v1, '=') == [k, v1]
    ensures Split(k + "=" + (v2 + "=" + extra), '=') == [k, v2] + Split(extra, '=')
  {
    var p1 := k + "=" + v1;
    var p2 := k + "=" + (v2 + "=" + extra);
    assert k + "=" + v1 + "&" + k + "=" + v2 + "=" + extra == p1 + ['&'] + p2;
    SplitNone(p2, '&');
    SplitFirst(p1, '&', p2);
    SplitNone(v1, '=');
    SplitFirst(k, '=', v1);
    SplitFirst(v2, '=', extra);
    SplitFirst(k, '=', v2 + "=" + extra);
  }

  /** "k=v1&k=v2=extra" gives k the values v1 and v2: a repeated key
      accumulates its values in order, and the text after a pair's second
      "=" is dropped. */
  lemma FormDataExample(k: string, v1: string, v2: string, extra: string)
    requires '&' !in k && '=' !in k && '&' !in v1 && '=' !in v1 && '&' !in v2 && '=' !in v2 && '&' !in extra
    ensures FormData(k + "=" + v1 + "&" + k + "=" + v2 + "=" + extra) == Some(map[k := [v1, v2]])
  {
    var p1 := k + "=" + v1;
    var p2 := k + "=" + (v2 + "=" + extra);
    ExampleSplits(k, v1, v2, extra);
    var m1 := AddValue(map[], k, v1);
    assert [p1, p2] == [p1] + [p2];
    AddPairsHead(map[], p1, [p2]);
    assert [p2] == [p2] + [];
    AddPairsHead(m1, p2, []);
    var m2 := AddValue(m1, k, v2);
    assert FormData(k + "=" + v1 + "&" + k + "=" + v2 + "=" + extra) == Some(m2);
    assert m1[k] == [v1] && m1.Keys == {k};
    assert m2[k] == [v1] + [v2] == [v1, v2] && m2.Keys == {k};
    assert m2 == map[k := [v1, v2]];
  }

  /** A lone pair without "=" panics. */
  lemma FormDataPanicExample(p: string)
    requires '&' !in p && '=' !in p
    ensures FormData(p) == None
  {
    SplitNone(p, '&');
    SplitNone(p, '=');
  }

  // ---------------------------------------------------------------------
  // Building and sending the request (BaseFetcher.response)

  datatype HttpRequest = HttpRequest(
    httpMethod: string,
    url: string,
    body: Option<string>,
    headers: seq<(string, string)>)

  /** The request BaseFetcher.response builds: without form data the
      request's own method and no body; with form data a POST carrying the
      encoded form. None when parseFormData panics. */
  function BuildRequest(r: Request, encode: FormValues -> string): (h: Option<HttpRequest>)
    ensures r.formData == [] ==> h == Some(HttpRequest(r.httpMethod, r.url, None, []))
    ensures r.formData != [] ==> (h.Some? <==> FormData(r.formData).Some?)
    ensures r.formData != [] && h.Some? ==>
      var body := encode(FormData(r.formData).value);
      && h.value.httpMethod == "POST" && h.value.url == r.url && h.value.body == Some(body)
      && ("Content-Type", "application/x-www-form-urlencoded") in h.value.headers
      && ("Content-Length", NatToString(|body|)) in h.value.headers
  {
    if r.formData == [] then Some(HttpRequest(r.httpMethod, r.url, None, []))
    else
      match FormData(r.formData)
      case None => None
      case Some(vals) =>
        var body := encode(vals);
        Some(HttpRequest("POST", r.url, Some(body),
          [("Content-Type", "application/x-www-form-urlencoded"), ("Content-Length", NatToString(|body|))]))
  }

  /** The status codes of section 15 of RFC 9110 the fetcher distinguishes. */
  const StatusOK := 200
  const StatusBadRequest := 400
  const StatusUnauthorized := 401
  const StatusForbidden := 403
  const StatusNotFound := 404
  const StatusProxyAuthRequired := 407
  const StatusInternalServerError := 500
  const StatusBadGateway := 502
  const StatusGatewayTimeout := 504

  /** The error the fetcher reports for a non-200 status. */
  function StatusError(code: int, url: string): FetchError
    requires code != StatusOK
  {
    if code == StatusNotFound then NotFound(url)
    else if code == StatusForbidden then Forbidden(url)
    else if code == StatusBadRequest then BadRequest("")
    else if code == StatusUnauthorized then Unauthorized
    else if code == StatusProxyAuthRequired then ProxyAuthenticationRequired
    else if code == StatusInternalServerError then InternalServerError
    else if code == StatusBadGateway then BadGateway
    else if code == StatusGatewayTimeout then GatewayTimeout
    else UnknownError("Unknown Error")
  }

  /** The status an error kind stands for, the reverse of StatusError. */
  function ErrorStatus(e: FetchError): Option<int>
  {
    match e
    case NotFound(_) => Some(StatusNotFound)
    case Forbidden(_) => Some(StatusForbidden)
    case BadRequest(_) => Some(StatusBadRequest)
    case Unauthorized => Some(StatusUnauthorized)
    case ProxyAuthenticationRequired => Some(StatusProxyAuthRequired)
    case InternalServerError => Some(StatusInternalServerError)
    case BadGateway => Some(StatusBadGateway)
    case GatewayTimeout => Some(StatusGatewayTimeout)
    case _ => None
  }

  predicate IsMappedStatus(code: int)
  {
    code in {StatusBadRequest, StatusUnauthorized, StatusForbidden, StatusNotFound,
             StatusProxyAuthRequired, StatusInternalServerError, StatusBadGateway, StatusGatewayTimeout}
  }

  /** Every distinguished status maps to an error that names it back;
      every other non-200 status is an "Unknown Error"; 4xx codes give client errors and 5xx server errors. */
  lemma StatusErrorRoundTrip(code: int, url: string)
    requires code != StatusOK
    ensures IsMappedStatus(code) ==> ErrorStatus(StatusError(code, url)) == Some(code)
    ensures !IsMappedStatus(code) ==> StatusError(code, url) == UnknownError("Unknown Error")
    ensures (code == StatusNotFound || code == StatusForbidden) ==> StatusError(code, url).url == url
    ensures IsMappedStatus(code) ==>
      ((400 <= code < 500) <==>
         StatusError(code, url) in {NotFound(url), Forbidden(url), BadRequest(""), Unauthorized, ProxyAuthenticationRequired})
  {
  }

  /** What `http.Client.Do` answers: a status code, or None on a transport error. */
  datatype HttpResponse = HttpResponse(status: int, body: Bytes)

  /** BaseFetcher.response: URL validation first (before any request is
      made), then request construction, sending, and the status mapping. */
  function Response(r: Request, validURI: string -> bool, newRequestOk: (string, string) -> bool,
                    encode: FormValues -> string, send: HttpRequest -> Option<HttpResponse>)
    : (res: Result<HttpResponse, FetchError>)
    ensures !validURI(GetURL(r)) ==> res.Err? && res.error.BadRequest?
    ensures res.Ok? ==> res.value.status == StatusOK
    ensures res.Ok? ==>
      (validURI(GetURL(r)) && BuildRequest(r, encode).Some?
       && send(BuildRequest(r, encode).value) == Some(res.value))
    ensures (res.Err? && validURI(GetURL(r)) && BuildRequest(r, encode).Some?
             && newRequestOk(BuildRequest(r, encode).value.httpMethod, r.url)
             && send(BuildRequest(r, encode).value).Some?) ==>
        var code := send(BuildRequest(r, encode).value).value.status;
        code != StatusOK && res.error == StatusError(code, r.url)
  {
    if !validURI(GetURL(r)) then Err(BadRequest("invalid request URI"))
    else
      match BuildRequest(r, encode)
      case None => Err(Panic("index out of range"))
      case Some(h) =>
        if !newRequestOk(h.httpMethod, r.url) then Err(RequestBuildError)
        else
          match send(h)
          case None => Err(BadRequest("transport error"))
          case Some(resp) =>
            if resp.status != StatusOK then Err(StatusError(resp.status, r.url)) else Ok(resp)
  }

  // ---------------------------------------------------------------------
  // Fetcher construction and the cookie jar

  datatype FetcherKind = BaseFetcherKind | ChromeFetcherKind

  /** The fetcher Type constants. */
  const BaseType := "Base"
  const ChromeType := "Chrome"

  /** newFetcher: Base and Chrome build their fetchers; any other type
      panics ("unhandled type"). */
  function NewFetcherKind(t: string): (r: Result<FetcherKind, string>)
    ensures r == Ok(BaseFetcherKind) <==> t == BaseType
    ensures r == Ok(ChromeFetcherKind) <==> t == ChromeType
    ensures r.Err? <==> t != BaseType && t != ChromeType
  {
    if t == BaseType then Ok(BaseFetcherKind)
    else if t == ChromeType then Ok(ChromeFetcherKind)
    else Err("unhandled type: " + t)
  }

  datatype Cookie = Cookie(name: string, value: string, domain: string)

  /** An http.CookieJar: the cookies it currently holds. */
  class CookieJar {
    var cookies: seq<Cookie>

    constructor ()
      ensures cookies == []
    {
      cookies := [];
    }

    /** jar.SetCookies(u, cs) for cookies that all belong to u's host. */
    method SetCookies(cs: seq<Cookie>)
      modifies this
      ensures cookies == old(cookies) + cs
    {
      cookies := cookies + cs;
    }

    /** jar.AllCookies() */
    method AllCookies() returns (cs: seq<Cookie>)
      ensures cs == cookies
    {
      cs := cookies;
    }
  }

  /** A BaseFetcher or ChromeFetcher with the jar of its http.Client. */
  class Fetcher {
    const kind: FetcherKind
    var jar: CookieJar?

    constructor (k: FetcherKind)
      ensures kind == k && jar == null
    {
      kind := k;
      jar := null;
    }

    /** setCookieJar installs the jar on the client. */
    method SetCookieJar(j: CookieJar?)
      modifies this
      ensures jar == j
    {
      jar := j;
    }

    /** getCookieJar returns the installed jar: the one the last
        setCookieJar installed. */
    method GetCookieJar() returns (j: CookieJar?)
      ensures j == jar
    {
      j := jar;
    }
  }

  // ---------------------------------------------------------------------
  // Cache information of a fetched response (BaseFetcherResponse)

  /** time.Time, with Go's zero value kept distinct. */
  datatype Time = ZeroTime | At(seconds: int)

  datatype Reason = Reason(code: nat)

  const Day := 24 * 60 * 60

  class BaseFetcherResponse {
    var html: Bytes
    var statusCode: int
    var expires: Time
    var reasonsNotToCache: seq<Reason>

    constructor (body: Bytes, status: int)
      ensures html == body && statusCode == status
      ensures expires == ZeroTime && reasonsNotToCache == []
    {
      html, statusCode := body, status;
      expires, reasonsNotToCache := ZeroTime, [];
    }

    /** SetCacheInfo, given what cachecontrol computed (`reasons`,
        `computed`) and the current time `now`: a zero expiry becomes now +
        24 h, any other expiry is kept; the reasons are stored as given. */
    method SetCacheInfo(reasons: seq<Reason>, computed: Time, now: int)
      modifies this`expires, this`reasonsNotToCache
      ensures expires == (if computed == ZeroTime then At(now + Day) else computed)
      ensures expires != ZeroTime
      ensures reasonsNotToCache == reasons
    {
      if computed == ZeroTime {
        expires := At(now + Day);
      } else {
        expires := computed;
      }
      reasonsNotToCache := reasons;
    }

    function GetExpires(): (t: Time)
      reads this
      ensures t == expires
    {
      expires
    }

    function GetReasonsNotToCache(): (rs: seq<Reason>)
      reads this
      ensures rs == reasonsNotToCache
    {
      reasonsNotToCache
    }
  }
}
