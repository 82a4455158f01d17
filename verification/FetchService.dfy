/** FetchService.Fetch of fetch/service.go: choose a fetcher, restore the
    user's stored cookies for the request's host into a fresh jar, fetch,
    and write the remaining cookies plus the jar's cookies back under the
    user token.

    Foreign code appears as parameters: JSON (un)marshalling of cookie lists
    as `decode`/`encode`, `url.Parse(...).Host` as `hostOf`, and the fetch
    itself as `send`, which answers the body and the cookies the jar holds
    afterwards. */
module FetchService {
  import opened Base
  import opened Fetchers

  /** The fetcher type FetchService.Fetch asks for: "chrome" selects the
      Chrome fetcher, every other string (invalid ones included) Base; so
      newFetcher is never asked for a type it panics on. */
  function ServiceFetcherType(t: string): (k: string)
    ensures k == ChromeType <==> t == "chrome"
    ensures k == BaseType <==> t != "chrome"
    ensures NewFetcherKind(k).Ok?
  {
    if t == "chrome" then ChromeType else BaseType
  }

  /** A cookie set for exactly `host`, and its complement. */
  function DomainIs(host: string): Cookie -> bool
  {
    (c: Cookie) => c.domain == host
  }

  function DomainIsNot(host: string): Cookie -> bool
  {
    (c: Cookie) => c.domain != host
  }

  /** The partition loop: cookies whose Domain is the URL's host move, in
      order, to `temp` and are deleted from the list in place; `i--` makes
      the loop look at the element that slid into the freed slot. */
  method PartitionCookies(cookies: seq<Cookie>, host: string) returns (temp: seq<Cookie>, rest: seq<Cookie>)
    ensures temp == Filter(cookies, DomainIs(host))
    ensures rest == Filter(cookies, DomainIsNot(host))
  {
    var cArr := cookies;
    temp := [];
    var i: int := 0;
    ghost var k := 0;
    while i < |cArr|
      invariant 0 <= k <= |cookies|
      invariant temp == Filter(cookies[..k], DomainIs(host))
      invariant i == |Filter(cookies[..k], DomainIsNot(host))|
      invariant cArr == Filter(cookies[..k], DomainIsNot(host)) + cookies[k..]
      decreases |cArr| - i
    {
      DeleteAt(cArr, Filter(cookies[..k], DomainIsNot(host)), cookies, k);
      var c := cArr[i];
      if host == c.domain {
        MoveStep(cookies, host, k);
        temp := temp + [c];
        cArr := cArr[..i] + cArr[i + 1..];
        i := i - 1;
      } else {
        KeepStep(cookies, host, k);
      }
      k := k + 1;
      i := i + 1;
    }
    assert cookies[..k] == cookies;
    rest := cArr;
  }

  /** Deleting the element that follows `kept` in `kept + s[k..]`. */
  lemma DeleteAt<T>(a: seq<T>, kept: seq<T>, s: seq<T>, k: nat)
    requires k < |s| && a == kept + s[k..]
    ensures |kept| < |a| && a[|kept|] == s[k]
    ensures a[..|kept|] + a[|kept| + 1..] == kept + s[k + 1..]
    ensures a == (kept + [s[k]]) + s[k + 1..]
  {
    assert s[k..] == [s[k]] + s[k + 1..];
    assert a[..|kept|] == kept;
    assert a[|kept| + 1..] == s[k + 1..];
  }

  /** A cookie of the host moves to `temp`; the kept list stays. */
  lemma MoveStep(cookies: seq<Cookie>, host: string, k: nat)
    requires k < |cookies| && cookies[k].domain == host
    ensures Filter(cookies[..k + 1], DomainIs(host)) == Filter(cookies[..k], DomainIs(host)) + [cookies[k]]
    ensures Filter(cookies[..k + 1], DomainIsNot(host)) == Filter(cookies[..k], DomainIsNot(host))
  {
    FilterPrefixStep(cookies, k, DomainIs(host));
    FilterPrefixStep(cookies, k, DomainIsNot(host));
  }

  /** A cookie of another domain stays in the list; `temp` stays. */
  lemma KeepStep(cookies: seq<Cookie>, host: string, k: nat)
    requires k < |cookies| && cookies[k].domain != host
    ensures Filter(cookies[..k + 1], DomainIs(host)) == Filter(cookies[..k], DomainIs(host))
    ensures Filter(cookies[..k + 1], DomainIsNot(host)) == Filter(cookies[..k], DomainIsNot(host)) + [cookies[k]]
  {
    FilterPrefixStep(cookies, k, DomainIs(host));
    FilterPrefixStep(cookies, k, DomainIsNot(host));
  }

  /** Filtering one element further along a prefix. */
  lemma FilterPrefixStep<T>(s: seq<T>, k: nat, p: T -> bool)
    requires k < |s|
    ensures Filter(s[..k + 1], p) == Filter(s[..k], p) + (if p(s[k]) then [s[k]] else [])
  {
    assert s[..k + 1] == s[..k] + [s[k]];
    FilterAppend(s[..k], s[k], p);
  }

  /** The storage record type COOKIES, keyed by user token. */
  class CookieStore {
    var records: map<string, Bytes>

    constructor (init: map<string, Bytes>)
      ensures records == init
    {
      records := init;
    }

    /** Store.Read: fails for a key it does not hold. */
    method Read(key: string) returns (r: Result<Bytes, string>)
      ensures key in records ==> r == Ok(records[key])
      ensures key !in records ==> r.Err?
    {
      if key in records {
        r := Ok(records[key]);
      } else {
        r := Err("not found");
      }
    }

    /** Store.Write with ExpTime 0. */
    method Write(key: string, value: Bytes)
      modifies this
      ensures records == old(records)[key := value]
    {
      records := records[key := value];
    }
  }

  datatype ServiceError = FetchFailed(e: FetchError) | MalformedCookies | BadURL

  /** What the token's record holds, as the service reads it: a failed read
      only warns and counts as no cookies. */
  function StoredBytes(records: map<string, Bytes>, token: string): Bytes
  {
    if token in records then records[token] else []
  }

  /** The cookies restored into the jar and the ones kept aside, from the
      stored record: an empty record restores nothing; malformed JSON or a
      URL that does not parse is an error. */
  function Restored(stored: Bytes, url: string, decode: Bytes -> Option<seq<Cookie>>,
                    hostOf: string -> Option<string>): Result<(seq<Cookie>, seq<Cookie>), ServiceError>
  {
    if |stored| == 0 then Ok(([], []))
    else
      match decode(stored)
      case None => Err(MalformedCookies)
      case Some(cs) =>
        match hostOf(url)
        case None => Err(BadURL)
        case Some(h) => Ok((Filter(cs, DomainIs(h)), Filter(cs, DomainIsNot(h))))
  }

  /** The fetcher kind the service builds for a request. */
  function ServiceKind(req: Request): FetcherKind
  {
    NewFetcherKind(ServiceFetcherType(req.kind)).value
  }

  /** The cookies the service restores for a request, and the ones it
      keeps aside. */
  function RestoredFor(records: map<string, Bytes>, req: Request, decode: Bytes -> Option<seq<Cookie>>,
                       hostOf: string -> Option<string>): Result<(seq<Cookie>, seq<Cookie>), ServiceError>
  {
    if req.userToken == [] then Ok(([], []))
    else Restored(StoredBytes(records, req.userToken), GetURL(req), decode, hostOf)
  }

  /** The answer of FetchService.Fetch and the cookie records afterwards. */
  function FetchOutcome(records: map<string, Bytes>, req: Request,
                        decode: Bytes -> Option<seq<Cookie>>, encode: seq<Cookie> -> Bytes,
                        hostOf: string -> Option<string>,
                        send: (FetcherKind, Request, seq<Cookie>) -> Result<(Bytes, seq<Cookie>), FetchError>)
    : (Result<Bytes, ServiceError>, map<string, Bytes>)
  {
    match RestoredFor(records, req, decode, hostOf)
    case Err(e) => (Err(e), records)
    case Ok(pair) =>
      match send(ServiceKind(req), req, pair.0)
      case Err(e) => (Err(FetchFailed(e)), records)
      case Ok(out) =>
        (Ok(out.0), if req.userToken == [] then records else records[req.userToken := encode(pair.1 + out.1)])
  }

  /** The first half of FetchService.Fetch: read the token's record, decode
      it, and move the cookies of the request's host into the jar; answers
      the cookies kept aside. */
  method RestoreCookies(req: Request, store: CookieStore, decode: Bytes -> Option<seq<Cookie>>,
                        hostOf: string -> Option<string>, jar: CookieJar)
    returns (r: Result<seq<Cookie>, ServiceError>)
    modifies jar
    ensures var restored := RestoredFor(store.records, req, decode, hostOf);
      match restored
      case Err(e) => r == Err(e)
      case Ok(pair) => r == Ok(pair.1) && jar.cookies == old(jar.cookies) + pair.0
  {
    var cArr: seq<Cookie> := [];
    if req.userToken != [] {
      var read := store.Read(req.userToken);
      var cookies: Bytes := [];
      if read.Ok? {
        cookies := read.value;
      }
      assert cookies == StoredBytes(store.records, req.userToken);
      if |cookies| != 0 {
        var decoded := decode(cookies);
        if decoded.None? {
          return Err(MalformedCookies);
        }
        cArr := decoded.value;
        var host := hostOf(GetURL(req));
        if host.None? {
          return Err(BadURL);
        }
        var tempCarr;
        tempCarr, cArr := PartitionCookies(cArr, host.value);
        jar.SetCookies(tempCarr);
      } else {
        assert jar.cookies == old(jar.cookies) + [];
      }
    } else {
      assert jar.cookies == old(jar.cookies) + [];
    }
    return Ok(cArr);
  }

  /** FetchService.Fetch: choose the fetcher, restore the host's cookies
      into a fresh jar, fetch, and write the cookies back. */
  method Fetch(req: Request, store: CookieStore,
               decode: Bytes -> Option<seq<Cookie>>, encode: seq<Cookie> -> Bytes,
               hostOf: string -> Option<string>,
               send: (FetcherKind, Request, seq<Cookie>) -> Result<(Bytes, seq<Cookie>), FetchError>)
    returns (res: Result<Bytes, ServiceError>)
    modifies store
    ensures (res, store.records) == FetchOutcome(old(store.records), req, decode, encode, hostOf, send)
  {
    ghost var records := store.records;
    ghost var pre := RestoredFor(records, req, decode, hostOf);
    var fetcher := new Fetcher(NewFetcherKind(ServiceFetcherType(req.kind)).value);
    var jar := new CookieJar();
    var restored := RestoreCookies(req, store, decode, hostOf, jar);
    if restored.Err? {
      assert pre.Err? && pre.error == restored.error;
      return Err(restored.error);
    }
    assert pre.Ok? && restored.value == pre.value.1 && jar.cookies == pre.value.0;
    var cArr := restored.value;
    fetcher.SetCookieJar(jar);
    var installed := fetcher.GetCookieJar();
    assert installed == jar;
    var sent := send(fetcher.kind, req, installed.cookies);
    assert sent == send(ServiceKind(req), req, pre.value.0);
    if sent.Err? {
      return Err(FetchFailed(sent.error));
    }
    installed.cookies := sent.value.1;
    if req.userToken != [] {
      var after := fetcher.GetCookieJar();
      assert after == jar;
      var all := after.AllCookies();
      cArr := cArr + all;
      store.Write(req.userToken, encode(cArr));
      assert store.records == records[req.userToken := encode(pre.value.1 + sent.value.1)];
    }
    return Ok(sent.value.0);
  }

  /** Without a user token the cookie store is never touched, and the fetch
      goes out with an empty jar. */
  lemma NoTokenNoStore(records: map<string, Bytes>, req: Request,
                       decode: Bytes -> Option<seq<Cookie>>, encode: seq<Cookie> -> Bytes,
                       hostOf: string -> Option<string>,
                       send: (FetcherKind, Request, seq<Cookie>) -> Result<(Bytes, seq<Cookie>), FetchError>)
    requires req.userToken == []
    ensures FetchOutcome(records, req, decode, encode, hostOf, send).1 == records
    ensures FetchOutcome(records, req, decode, encode, hostOf, send).0
            == (match send(ServiceKind(req), req, [])
                case Err(e) => Err(FetchFailed(e))
                case Ok(out) => Ok(out.0))
  {
  }

  /** A failed fetch (or a cookie record that cannot be restored) writes
      nothing back. */
  lemma FailureNoWrite(records: map<string, Bytes>, req: Request,
                       decode: Bytes -> Option<seq<Cookie>>, encode: seq<Cookie> -> Bytes,
                       hostOf: string -> Option<string>,
                       send: (FetcherKind, Request, seq<Cookie>) -> Result<(Bytes, seq<Cookie>), FetchError>)
    requires FetchOutcome(records, req, decode, encode, hostOf, send).0.Err?
    ensures FetchOutcome(records, req, decode, encode, hostOf, send).1 == records
  {
  }

  /** After a successful fetch under a token, only that token's record
      changes: it holds the stored cookies of other hosts, then everything
      the jar held after the fetch; the jar had been given exactly the
      stored cookies of the request's host, and the two groups together are
      the stored cookies, none lost and none duplicated. */
  lemma {:induction false} SuccessWriteBack(records: map<string, Bytes>, req: Request,
                       decode: Bytes -> Option<seq<Cookie>>, encode: seq<Cookie> -> Bytes,
                       hostOf: string -> Option<string>,
                       send: (FetcherKind, Request, seq<Cookie>) -> Result<(Bytes, seq<Cookie>), FetchError>)
    requires req.userToken != []
    requires FetchOutcome(records, req, decode, encode, hostOf, send).0.Ok?
    ensures var after := FetchOutcome(records, req, decode, encode, hostOf, send).1;
      after.Keys == records.Keys + {req.userToken}
      && (forall k :: k in records && k != req.userToken ==> after[k] == records[k])
    ensures var stored := StoredBytes(records, req.userToken);
      |stored| != 0 ==>
        exists cs, h, out ::
          decode(stored) == Some(cs) && hostOf(GetURL(req)) == Some(h)
          && send(ServiceKind(req), req, Filter(cs, DomainIs(h))) == Ok(out)
          && FetchOutcome(records, req, decode, encode, hostOf, send).1[req.userToken]
             == encode(Filter(cs, DomainIsNot(h)) + out.1)
          && multiset(Filter(cs, DomainIs(h))) + multiset(Filter(cs, DomainIsNot(h))) == multiset(cs)
          && (forall c :: c in Filter(cs, DomainIs(h)) ==> c.domain == h)
  {
    var stored := StoredBytes(records, req.userToken);
    if |stored| != 0 {
      var cs := decode(stored).value;
      var h := hostOf(GetURL(req)).value;
      var out := send(ServiceKind(req), req, Filter(cs, DomainIs(h))).value;
      FilterPartition(cs, DomainIs(h), DomainIsNot(h));
      FilterSound(cs, DomainIs(h));
      assert decode(stored) == Some(cs) && hostOf(GetURL(req)) == Some(h);
    }
  }
}
