/** The cache-aside middleware of server/caching.mw.go, in front of the
    parse service's Fetch and ParseData: answer from the Redis cache when
    the key is there, otherwise call the wrapped service and store what it
    produced.

    The Redis connection is a class over the key/value map and the expiry
    settings. A failed GetValue is a miss. In ParseData a failed
    SetExpireIn is returned beside the output (its error is the named
    result of the bare return), so it is a parameter there; the failures of
    SetValue, and of SetExpireAt in Fetch, are only logged by the source and
    are not modelled. JSON
    (un)marshalling of responses, NewPayload and the wrapped service are
    parameters. */
module Caching {
  import opened Base

  /** An expiry setting: SetExpireAt with an absolute time, or SetExpireIn
      with a number of seconds. */
  datatype Expiry = ExpireAt(time: int) | ExpireIn(seconds: nat)

  /** What the cache holds. */
  datatype CacheState = CacheState(values: map<string, Bytes>, expiry: map<string, Expiry>)

  /** cache.RedisConn */
  class RedisConn {
    var values: map<string, Bytes>
    var expiry: map<string, Expiry>

    constructor (s: CacheState)
      ensures State() == s
    {
      values := s.values;
      expiry := s.expiry;
    }

    function State(): CacheState
      reads this
    {
      CacheState(values, expiry)
    }

    /** GetValue: an error (a miss) for a key it does not hold. */
    method GetValue(key: string) returns (r: Option<Bytes>)
      ensures r == (if key in values then Some(values[key]) else None)
    {
      if key in values {
        r := Some(values[key]);
      } else {
        r := None;
      }
    }

    method SetValue(key: string, value: Bytes)
      modifies this
      ensures values == old(values)[key := value] && expiry == old(expiry)
    {
      values := values[key := value];
    }

    method SetExpire(key: string, e: Expiry)
      modifies this
      ensures values == old(values) && expiry == old(expiry)[key := e]
    {
      expiry := expiry[key := e];
    }
  }

  // ---------------------------------------------------------------------
  // ParseData

  /** The fields of a payload the middleware reads. */
  datatype PayloadInfo = PayloadInfo(format: string, payloadMD5: string)

  /** The lifetime of a cached ParseData result, in seconds. */
  const ParseDataExpiry: nat := 3600

  /** The cache key of a ParseData result. */
  function ParseDataKey(p: PayloadInfo): (k: string)
    ensures k == p.format + "-" + p.payloadMD5
    ensures |k| == |p.format| + 1 + |p.payloadMD5| && k[|p.format|] == '-'
  {
    p.format + "-" + p.payloadMD5
  }

  /** What cachemw.ParseData returns: its two named results, an output and
      an error. A failed SetExpireIn leaves both set. */
  datatype ParseAnswer = ParseAnswer(output: Option<Bytes>, err: Option<string>)

  /** The answer of cachemw.ParseData and the cache afterwards; `expireErr`
      is what SetExpireIn reports, and a failed SetExpireIn sets no expiry. */
  function ParseDataOutcome(s: CacheState, payload: Bytes,
                            newPayload: Bytes -> Result<PayloadInfo, string>,
                            inner: Bytes -> Result<Bytes, string>,
                            expireErr: Option<string>): (ParseAnswer, CacheState)
  {
    match newPayload(payload)
    case Err(e) => (ParseAnswer(None, Some(e)), s)
    case Ok(p) =>
      var key := ParseDataKey(p);
      if key in s.values then (ParseAnswer(Some(s.values[key]), None), s)
      else
        match inner(payload)
        case Err(e) => (ParseAnswer(None, Some(e)), s)
        case Ok(out) =>
          var expiry := if expireErr.None? then s.expiry[key := ExpireIn(ParseDataExpiry)] else s.expiry;
          (ParseAnswer(Some(out), expireErr), CacheState(s.values[key := out], expiry))
  }

  /** cachemw.ParseData */
  method ParseData(conn: RedisConn, payload: Bytes,
                   newPayload: Bytes -> Result<PayloadInfo, string>,
                   inner: Bytes -> Result<Bytes, string>,
                   expireErr: Option<string>) returns (answer: ParseAnswer)
    modifies conn
    ensures (answer, conn.State()) == ParseDataOutcome(old(conn.State()), payload, newPayload, inner, expireErr)
  {
    var p := newPayload(payload);
    if p.Err? {
      return ParseAnswer(None, Some(p.error));
    }
    var redisKey := ParseDataKey(p.value);
    var redisValue := conn.GetValue(redisKey);
    if redisValue.Some? {
      return ParseAnswer(Some(redisValue.value), None);
    }
    var parsed := inner(payload);
    if parsed.Err? {
      return ParseAnswer(None, Some(parsed.error));
    }
    conn.SetValue(redisKey, parsed.value);
    if expireErr.None? {
      conn.SetExpire(redisKey, ExpireIn(ParseDataExpiry));
    }
    answer := ParseAnswer(Some(parsed.value), expireErr);
  }

  /** A hit answers the cached bytes with no error whatever the wrapped
      service would have done, and changes nothing. */
  lemma ParseDataHitIgnoresInner(s: CacheState, payload: Bytes,
                                 newPayload: Bytes -> Result<PayloadInfo, string>,
                                 inner1: Bytes -> Result<Bytes, string>,
                                 inner2: Bytes -> Result<Bytes, string>,
                                 expireErr1: Option<string>, expireErr2: Option<string>)
    requires newPayload(payload).Ok? && ParseDataKey(newPayload(payload).value) in s.values
    ensures ParseDataOutcome(s, payload, newPayload, inner1, expireErr1) == ParseDataOutcome(s, payload, newPayload, inner2, expireErr2)
    ensures ParseDataOutcome(s, payload, newPayload, inner1, expireErr1)
            == (ParseAnswer(Some(s.values[ParseDataKey(newPayload(payload).value)]), None), s)
  {
  }

  /** Errors without an output (of NewPayload or of the wrapped service)
      write nothing; an error beside an output is SetExpireIn's, after the
      value was written. */
  lemma ParseDataErrorNoWrite(s: CacheState, payload: Bytes,
                              newPayload: Bytes -> Result<PayloadInfo, string>,
                              inner: Bytes -> Result<Bytes, string>,
                              expireErr: Option<string>)
    requires ParseDataOutcome(s, payload, newPayload, inner, expireErr).0.err.Some?
    ensures var (a, s1) := ParseDataOutcome(s, payload, newPayload, inner, expireErr);
      a.output.None? <==> s1 == s
    ensures var (a, s1) := ParseDataOutcome(s, payload, newPayload, inner, expireErr);
      a.output.Some? ==> a.err == expireErr && s1.expiry == s.expiry
  {
    var (a, s1) := ParseDataOutcome(s, payload, newPayload, inner, expireErr);
    if a.output.Some? {
      var key := ParseDataKey(newPayload(payload).value);
      assert key !in s.values && key in s1.values;
    }
  }

  /** A successful miss answers the wrapped service's bytes, together with
      SetExpireIn's error when it fails; the bytes are stored either way,
      and the expiry of an hour only when SetExpireIn succeeds. */
  lemma ParseDataMissAnswer(s: CacheState, payload: Bytes,
                            newPayload: Bytes -> Result<PayloadInfo, string>,
                            inner: Bytes -> Result<Bytes, string>,
                            expireErr: Option<string>)
    requires newPayload(payload).Ok? && ParseDataKey(newPayload(payload).value) !in s.values
    requires inner(payload).Ok?
    ensures var key := ParseDataKey(newPayload(payload).value);
      var (a, s1) := ParseDataOutcome(s, payload, newPayload, inner, expireErr);
      a == ParseAnswer(Some(inner(payload).value), expireErr)
      && key in s1.values && s1.values[key] == inner(payload).value
      && (key in s1.expiry && s1.expiry[key] == ExpireIn(ParseDataExpiry) <== expireErr.None?)
      && (s1.expiry == s.expiry <== expireErr.Some?)
  {
  }

  /** Cache-aside round trip: after a miss that produced an output, the same
      payload hits and answers the same bytes with no error, and asking
      again changes nothing. */
  lemma {:induction false} ParseDataCachesResult(s: CacheState, payload: Bytes,
                                newPayload: Bytes -> Result<PayloadInfo, string>,
                                inner: Bytes -> Result<Bytes, string>,
                                later: Bytes -> Result<Bytes, string>,
                                expireErr: Option<string>, laterExpireErr: Option<string>)
    requires ParseDataOutcome(s, payload, newPayload, inner, expireErr).0.output.Some?
    ensures var (first, s1) := ParseDataOutcome(s, payload, newPayload, inner, expireErr);
      ParseDataOutcome(s1, payload, newPayload, later, laterExpireErr) == (ParseAnswer(first.output, None), s1)
  {
    var p := newPayload(payload).value;
    var key := ParseDataKey(p);
    var (first, s1) := ParseDataOutcome(s, payload, newPayload, inner, expireErr);
    assert key in s1.values && s1.values[key] == first.output.value;
  }

  /** Only the payload's own key and expiry can change. */
  lemma ParseDataFrame(s: CacheState, payload: Bytes,
                       newPayload: Bytes -> Result<PayloadInfo, string>,
                       inner: Bytes -> Result<Bytes, string>,
                       expireErr: Option<string>, k: string)
    requires newPayload(payload).Err? || k != ParseDataKey(newPayload(payload).value)
    ensures var s1 := ParseDataOutcome(s, payload, newPayload, inner, expireErr).1;
      (k in s1.values <==> k in s.values) && (k in s.values ==> s1.values[k] == s.values[k])
      && (k in s1.expiry <==> k in s.expiry) && (k in s.expiry ==> s1.expiry[k] == s.expiry[k])
  {
  }

  // ---------------------------------------------------------------------
  // Fetch

  /** The fields of a splash.Response the middleware reads. */
  datatype SplashResponse = SplashResponse(status: int, cacheable: bool, cacheExpirationTime: int, content: Bytes)

  /** What the wrapped Fetch answers: a splash response or some other value. */
  datatype Fetched = Splash(response: SplashResponse) | OtherOutput

  /** The answer of cachemw.Fetch: an output (nil when the wrapped service
      answered something other than a splash response), an error, or a
      panic on the nil response a failed unmarshal leaves behind. */
  datatype FetchAnswer = Output(output: Option<SplashResponse>) | Failed(message: string) | Panicked

  const NotFoundMessage: string := "Error: 404. NOT FOUND"

  /** The answer of cachemw.Fetch and the cache afterwards. */
  function FetchOutcome(s: CacheState, url: string,
                        unmarshal: Bytes -> Option<SplashResponse>,
                        marshal: SplashResponse -> Option<Bytes>,
                        inner: string -> Result<Fetched, string>): (FetchAnswer, CacheState)
  {
    if url in s.values then
      match unmarshal(s.values[url])
      case None => (Panicked, s)
      case Some(r) => (if r.status == 404 then Failed(NotFoundMessage) else Output(Some(r)), s)
    else
      match inner(url)
      case Err(e) => (Failed(e), s)
      case Ok(OtherOutput) => (Output(None), s)
      case Ok(Splash(r)) =>
        if r.cacheable then
          var bytes := match marshal(r) case Some(b) => b case None => [];
          (Output(Some(r)), CacheState(s.values[url := bytes], s.expiry[url := ExpireAt(r.cacheExpirationTime)]))
        else (Output(Some(r)), s)
  }

  /** cachemw.Fetch, keyed by the request URL. */
  method Fetch(conn: RedisConn, url: string,
               unmarshal: Bytes -> Option<SplashResponse>,
               marshal: SplashResponse -> Option<Bytes>,
               inner: string -> Result<Fetched, string>) returns (answer: FetchAnswer)
    modifies conn
    ensures (answer, conn.State()) == FetchOutcome(old(conn.State()), url, unmarshal, marshal, inner)
  {
    var redisValue := conn.GetValue(url);
    if redisValue.Some? {
      var sResponse := unmarshal(redisValue.value);
      if sResponse.None? {
        return Panicked;
      }
      if sResponse.value.status == 404 {
        return Failed(NotFoundMessage);
      }
      return Output(sResponse);
    }
    var resp := inner(url);
    if resp.Err? {
      return Failed(resp.error);
    }
    answer := Output(None);
    if resp.value.Splash? {
      var sResponse := resp.value.response;
      if sResponse.cacheable {
        var response := marshal(sResponse);
        var bytes: Bytes := [];
        if response.Some? {
          bytes := response.value;
        }
        conn.SetValue(url, bytes);
        conn.SetExpire(url, ExpireAt(sResponse.cacheExpirationTime));
      }
      answer := Output(Some(sResponse));
    }
  }

  /** A Fetch hit never depends on the wrapped service and changes nothing;
      a cached 404 is reported as an error. */
  lemma FetchHitIgnoresInner(s: CacheState, url: string,
                             unmarshal: Bytes -> Option<SplashResponse>,
                             marshal: SplashResponse -> Option<Bytes>,
                             inner1: string -> Result<Fetched, string>,
                             inner2: string -> Result<Fetched, string>)
    requires url in s.values
    ensures FetchOutcome(s, url, unmarshal, marshal, inner1) == FetchOutcome(s, url, unmarshal, marshal, inner2)
    ensures FetchOutcome(s, url, unmarshal, marshal, inner1).1 == s
    ensures unmarshal(s.values[url]).Some? && unmarshal(s.values[url]).value.status == 404
            ==> FetchOutcome(s, url, unmarshal, marshal, inner1).0 == Failed(NotFoundMessage)
  {
  }

  /** On a miss only a cacheable splash response is written, with its own
      expiration time; errors and everything else leave the cache alone. */
  lemma FetchMissWrites(s: CacheState, url: string,
                        unmarshal: Bytes -> Option<SplashResponse>,
                        marshal: SplashResponse -> Option<Bytes>,
                        inner: string -> Result<Fetched, string>)
    requires url !in s.values
    ensures var s1 := FetchOutcome(s, url, unmarshal, marshal, inner).1;
      s1 != s <==> (inner(url).Ok? && inner(url).value.Splash? && inner(url).value.response.cacheable)
    ensures var s1 := FetchOutcome(s, url, unmarshal, marshal, inner).1;
      s1 != s ==> url in s1.values && s1.expiry[url] == ExpireAt(inner(url).value.response.cacheExpirationTime)
  {
    var s1 := FetchOutcome(s, url, unmarshal, marshal, inner).1;
    if inner(url).Ok? && inner(url).value.Splash? && inner(url).value.response.cacheable {
      assert url in s1.values;
    }
  }

  /** With a JSON codec that round-trips, a cacheable response fetched on a
      miss is answered from the cache next time, except that a cached 404
      now comes back as an error where the first call returned the
      response itself. */
  lemma {:induction false} FetchCachesResponse(s: CacheState, url: string,
                            unmarshal: Bytes -> Option<SplashResponse>,
                            marshal: SplashResponse -> Option<Bytes>,
                            inner: string -> Result<Fetched, string>,
                            later: string -> Result<Fetched, string>)
    requires forall r :: marshal(r).Some? && unmarshal(marshal(r).value) == Some(r)
    requires url !in s.values
    requires inner(url).Ok? && inner(url).value.Splash? && inner(url).value.response.cacheable
    ensures var r := inner(url).value.response;
      var (first, s1) := FetchOutcome(s, url, unmarshal, marshal, inner);
      first == Output(Some(r))
      && FetchOutcome(s1, url, unmarshal, marshal, later)
         == (if r.status == 404 then Failed(NotFoundMessage) else Output(Some(r)), s1)
  {
    var r := inner(url).value.response;
    var (first, s1) := FetchOutcome(s, url, unmarshal, marshal, inner);
    assert marshal(r).Some? && unmarshal(marshal(r).value) == Some(r);
    assert s1.values[url] == marshal(r).value;
  }
}
