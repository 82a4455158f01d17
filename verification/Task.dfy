/** The traversal half of scrape/scrape.go: a Task scrapes the pages of a
    payload with a compiled Scraper, page after page and block after block,
    stores every non-empty block under the key `UID-page-block`, records
    the block indices of each page in a shared page-keys map, and falls back
    once to the splash fetcher when nothing was parsed.

    The goroutines of the source (one per next page, one per block worker)
    run here one after the other, at the point where the source starts
    them. Fetching, DOM queries, extraction, hashing and JSON are the
    oracles of `Env`. Recursion through next pages and Details pages is
    bounded by `fuel`. */
module Tasks {
  import opened Base
  import opened Blocks
  import opened Plan
  import Robots
  import Encoders

  /** A fetched and parsed document, and a selection in it. */
  datatype Doc = Doc(source: Bytes)
  datatype Selection = Selection(nodes: seq<nat>)

  datatype TaskError =
    | HostError(msg: string)
    | RobotsURLError(msg: string)
    | RobotsFetchError(msg: string)
    | ForbiddenByRobots(url: string)
    | FetchFailed(msg: string)
    | PagerFailed(msg: string)
    | InitRequestFailed(msg: string)
    | CompileFailed(planError: PlanError)
    | EmptyResults
    | InvalidFormat
    | EncodeFailed(msg: string)
    | NilPaginateResults   // the panic of dereferencing an unset PaginateResults
    | Hung                 // Task.Parse blocks for ever in wg.Wait

  /** The calls into code outside the model. */
  datatype Env = Env(
    getURL: ScrapeRequest -> string,                           // Request.GetURL
    host: ScrapeRequest -> Result<string, string>,             // Request.Host
    robotsData: string -> Result<Robots.RobotsData, string>,   // fetch.RobotstxtData
    assembleRobotsURL: string -> Result<string, string>,       // fetch.AssembleRobotstxtURL
    allowed: (string, Option<Robots.RobotsData>) -> bool,      // fetch.AllowedByRobots
    fetch: ScrapeRequest -> Result<Doc, string>,               // fetchContent, then the goquery document
    nextPage: (Pager, string, Doc) -> Result<string, string>,  // Paginator.NextPage
    initRequest: (Payload, string) -> Result<ScrapeRequest, string>,
    divide: (Scraper, Doc) -> seq<Selection>,                  // DividePage
    find: (Selection, string) -> Selection,                    // Selection.Find
    extract: (ExtractorKind, Selection, string) -> Value,      // Extractor.Extract, with the base URL
    crc: string -> string,                                     // utils.GenerateCRC32
    marshalBlock: Block -> Bytes,                              // json.Marshal of a block
    marshalKeys: map<nat, seq<nat>> -> Bytes,                  // json.Marshal of the page keys
    compiles: string -> bool)                                  // regexp.MustCompile succeeds

  /** A scrape task. */
  class Task {
    var id: string
    var payload: Payload
    var errors: seq<TaskError>
    var robots: map<string, Option<Robots.RobotsData>>
    var parsed: bool
    /** The payload's Params maps that have lost "regexp" (see Plan). */
    var deleted: set<seq<nat>>

    /** NewTask; the ksuid is a parameter. */
    constructor (p: Payload, id: string)
      ensures this.id == id && payload == p && errors == [] && robots == map[] && !parsed && deleted == {}
    {
      this.id := id;
      payload := p;
      errors := [];
      robots := map[];
      parsed := false;
      deleted := {};
    }
  }

  /** The sync.WaitGroup of a chain of pages: started scrapes that have not
      called Done yet. */
  class WaitGroup {
    var count: int

    constructor ()
      ensures count == 0
    {
      count := 0;
    }

    method Add()
      modifies this
      ensures count == old(count) + 1
    {
      count := count + 1;
    }

    method Done()
      modifies this
      ensures count == old(count) - 1
    {
      count := count - 1;
    }
  }

  /** The page-keys map a chain of pages shares: page number to the indices
      of its blocks. */
  class PageKeys {
    var keys: map<nat, seq<nat>>

    /** Every page's entry is the block indices 0..n-1. */
    predicate Valid()
      reads this
    {
      forall q :: q in keys ==> keys[q] == Range(|keys[q]|)
    }

    constructor ()
      ensures keys == map[]
    {
      keys := map[];
    }
  }

  /** The key/value store blocks and page keys are written to. */
  class BlockStore {
    var records: map<string, Bytes>
    /** Every write, in order. */
    ghost var log: seq<(string, Bytes)>

    constructor ()
      ensures records == map[] && log == []
    {
      records := map[];
      log := [];
    }

    method Write(key: string, value: Bytes)
      modifies this
      ensures records == old(records)[key := value]
      ensures log == old(log) + [(key, value)]
    {
      records := records[key := value];
      log := log + [(key, value)];
    }
  }

  /** (key, value) was written at or after position `from` of the log. */
  predicate LoggedSince(log: seq<(string, Bytes)>, from: nat, key: string, value: Bytes)
  {
    from <= |log| && (key, value) in log[from..]
  }

  lemma LoggedWiden(log: seq<(string, Bytes)>, log': seq<(string, Bytes)>, a: nat, b: nat, key: string, value: Bytes)
    requires a <= b && log <= log' && LoggedSince(log, b, key, value)
    ensures LoggedSince(log', a, key, value)
  {
    var j :| 0 <= j < |log[b..]| && log[b..][j] == (key, value);
    assert log'[a..][b - a + j] == (key, value);
  }

  // ---------------------------------------------------------------------
  // Keys

  /** The storage key of block i of a page: `UID-page-i`. */
  function BlockKey(uid: string, page: nat, i: nat): string
  {
    uid + "-" + NatToString(page) + "-" + NatToString(i)
  }

  /** 0, 1, ..., n-1. */
  function Range(n: nat): (r: seq<nat>)
    ensures |r| == n && forall i :: 0 <= i < n ==> r[i] == i
  {
    seq(n, i => i)
  }

  /** Different blocks of the same chain never share a storage key, as long
      as the UID contains no '-'. */
  lemma BlockKeyInjective(uid: string, p1: nat, i1: nat, p2: nat, i2: nat)
    requires '-' !in uid
    requires BlockKey(uid, p1, i1) == BlockKey(uid, p2, i2)
    ensures p1 == p2 && i1 == i2
  {
    var a1, a2 := NatToString(p1), NatToString(p2);
    var b1, b2 := NatToString(i1), NatToString(i2);
    var k := BlockKey(uid, p1, i1);
    assert k == uid + ("-" + a1 + "-" + b1) && k == uid + ("-" + a2 + "-" + b2);
    var r1, r2 := "-" + a1 + "-" + b1, "-" + a2 + "-" + b2;
    assert r1 == k[|uid|..] == r2;
    assert r1[1..] == a1 + "-" + b1 && r2[1..] == a2 + "-" + b2;
    DigitsThenDash(a1, b1, a2, b2);
    NatToStringInjective(p1, p2);
    NatToStringInjective(i1, i2);
  }

  lemma DigitsThenDash(a1: string, b1: string, a2: string, b2: string)
    requires forall i :: 0 <= i < |a1| ==> IsDigit(a1[i])
    requires forall i :: 0 <= i < |a2| ==> IsDigit(a2[i])
    requires a1 + "-" + b1 == a2 + "-" + b2
    ensures a1 == a2 && b1 == b2
  {
    var s := a1 + "-" + b1;
    FirstDash(a1, b1);
    FirstDash(a2, b2);
    assert |a1| == |a2|;
    assert a1 == s[..|a1|] == a2;
    assert b1 == s[|a1| + 1..] == b2;
  }

  /** In digits + "-" + rest, the first '-' sits right after the digits. */
  lemma FirstDash(a: string, b: string)
    requires forall i :: 0 <= i < |a| ==> IsDigit(a[i])
    ensures (a + "-" + b)[|a|] == '-'
    ensures forall i :: 0 <= i < |a| ==> (a + "-" + b)[i] != '-'
  {
    var s := a + "-" + b;
    forall i | 0 <= i < |a|
      ensures s[i] != '-'
    {
      assert s[i] == a[i];
    }
  }

  // ---------------------------------------------------------------------
  // The page budget (see README "## Findings")

  /** Whether scrape starts the page after `page`: a next URL exists and the
      budget allows it. `asWritten` selects the source's comparison
      `page < MaxPages`, which lets MaxPages + 1 pages through; the
      corrected comparison is `page + 1 < MaxPages`. */
  predicate NextPageWanted(next: string, paginator: Option<PaginatorSpec>, page: nat, asWritten: bool)
  {
    |next| != 0 && paginator.Some? && paginator.value.maxPages > 0
    && (if asWritten then page < paginator.value.maxPages else page + 1 < paginator.value.maxPages)
  }

  /** The number of pages a chain visits from `page` on, against a site
      whose chain has `chain` pages (page k links to page k+1 while
      k + 1 < chain). */
  function PagesFrom(paginator: Option<PaginatorSpec>, page: nat, chain: nat, asWritten: bool): nat
    decreases chain - page
  {
    var next := if page + 1 < chain then "next" else "";
    if NextPageWanted(next, paginator, page, asWritten) then 1 + PagesFrom(paginator, page + 1, chain, asWritten)
    else 1
  }

  /** Corrected: from page 0 the chain visits min(chain, MaxPages) pages
      when MaxPages > 0, and only the first page otherwise. */
  lemma {:induction false} PagesVisited(paginator: Option<PaginatorSpec>, page: nat, chain: nat)
    requires page < chain
    ensures paginator.Some? && paginator.value.maxPages > 0 && page < paginator.value.maxPages ==>
      PagesFrom(paginator, page, chain, false) == Min(chain, paginator.value.maxPages) - page
    ensures (paginator.None? || paginator.value.maxPages <= 0) ==> PagesFrom(paginator, page, chain, false) == 1
    decreases chain - page
  {
    if page + 1 < chain {
      PagesVisited(paginator, page + 1, chain);
    }
  }

  function Min(a: int, b: int): int
  {
    if a < b then a else b
  }

  /** As written: with MaxPages 2 against a site of three linked pages,
      the chain visits all three. */
  lemma PagesVisitedAsWritten()
    ensures PagesFrom(Some(PaginatorSpec(".next a", "href", 2, false)), 0, 3, true) == 3
    ensures PagesFrom(Some(PaginatorSpec(".next a", "href", 2, false)), 0, 3, false) == 2
  {
    var ps := Some(PaginatorSpec(".next a", "href", 2, false));
    assert PagesFrom(ps, 2, 3, true) == 1;
    assert PagesFrom(ps, 1, 3, true) == 2;
    assert PagesFrom(ps, 1, 3, false) == 1;
  }

  // ---------------------------------------------------------------------
  // The robots gate of one page

  datatype Gate = Gate(added: seq<TaskError>, robots: map<string, Option<Robots.RobotsData>>, abort: Option<TaskError>)

  /** Host lookup, the per-host robots cache, and the robots check: the
      errors it records, the cache after it, and the error that aborts the
      page (the robots location cannot be assembled after the robots fetch
      failed). A disallowed URL is only recorded. */
  function RobotsGate(robots: map<string, Option<Robots.RobotsData>>, req: ScrapeRequest, env: Env): Gate
  {
    var url := env.getURL(req);
    var h := env.host(req);
    var host := if h.Ok? then h.value else "";
    var hostErrors := if h.Err? then [HostError(h.error)] else [];
    if host in robots then
      Gate(hostErrors + (if env.allowed(url, robots[host]) then [] else [ForbiddenByRobots(url)]), robots, None)
    else
      var rd := env.robotsData(url);
      if rd.Err? && env.assembleRobotsURL(url).Err? then
        Gate(hostErrors, robots, Some(RobotsURLError(env.assembleRobotsURL(url).error)))
      else
        var cached := robots[host := if rd.Ok? then Some(rd.value) else None];
        var robotsErrors := if rd.Err? then [RobotsFetchError(rd.error)] else [];
        Gate(hostErrors + robotsErrors + (if env.allowed(url, cached[host]) then [] else [ForbiddenByRobots(url)]),
             cached, None)
  }

  /** A cached host is never fetched again: the robots oracles are not
      consulted. */
  lemma RobotsFetchedOnce(robots: map<string, Option<Robots.RobotsData>>, req: ScrapeRequest, env: Env,
                          other: string -> Result<Robots.RobotsData, string>)
    requires var h := env.host(req); (if h.Ok? then h.value else "") in robots
    ensures RobotsGate(robots, req, env) == RobotsGate(robots, req, env.(robotsData := other))
    ensures RobotsGate(robots, req, env).robots == robots
  {
  }

  /** The cache only grows, the page's host is cached unless the page
      aborts, and a disallowed URL is recorded as ForbiddenByRobots without
      aborting. */
  lemma GateCaches(robots: map<string, Option<Robots.RobotsData>>, req: ScrapeRequest, env: Env)
    ensures var g := RobotsGate(robots, req, env);
      forall h :: h in robots ==> h in g.robots && g.robots[h] == robots[h]
    ensures var g := RobotsGate(robots, req, env);
      var h := env.host(req);
      var host := if h.Ok? then h.value else "";
      g.abort.None? ==>
        (host in g.robots
         && (ForbiddenByRobots(env.getURL(req)) in g.added <== !env.allowed(env.getURL(req), g.robots[host])))
    ensures var g := RobotsGate(robots, req, env);
      g.abort.Some? ==> g.abort.value.RobotsURLError? && env.robotsData(env.getURL(req)).Err?
  {
  }

  /** The robots part of Task.scrape. */
  method CheckRobots(t: Task, req: ScrapeRequest, env: Env) returns (abort: Option<TaskError>)
    modifies t
    ensures var g := RobotsGate(old(t.robots), req, env);
      t.errors == old(t.errors) + g.added && t.robots == g.robots && abort == g.abort
    ensures t.payload == old(t.payload) && t.id == old(t.id) && t.parsed == old(t.parsed) && t.deleted == old(t.deleted)
  {
    var url := env.getURL(req);
    var h := env.host(req);
    var host := if h.Ok? then h.value else "";
    if h.Err? {
      t.errors := t.errors + [HostError(h.error)];
    }
    if host !in t.robots {
      var rd := env.robotsData(url);
      if rd.Err? {
        var robotsURL := env.assembleRobotsURL(url);
        if robotsURL.Err? {
          return Some(RobotsURLError(robotsURL.error));
        }
        t.errors := t.errors + [RobotsFetchError(rd.error)];
      }
      t.robots := t.robots[host := if rd.Ok? then Some(rd.value) else None];
    }
    if !env.allowed(url, t.robots[host]) {
      t.errors := t.errors + [ForbiddenByRobots(url)];
    }
    abort := None;
  }

  // ---------------------------------------------------------------------
  // The next page

  /** The pagination step after fetching a page: the Scraper of the next
      page to start, if any, or the error that aborts this page. The
      decision reads the task payload's Paginator, the next URL comes from
      the current Scraper's paginator, and the next Scraper is compiled from
      the task payload with the next page's request. */
  function PagerStep(p: Payload, scraper: Scraper, page: nat, doc: Doc, env: Env, deleted: set<seq<nat>>,
                     asWritten: bool): Result<Option<(Scraper, set<seq<nat>>)>, TaskError>
  {
    if p.paginator.None? || p.paginator.value.infiniteScroll then Ok(None)
    else
      match env.nextPage(scraper.paginator, env.getURL(scraper.request), doc)
      case Err(e) => Err(PagerFailed(e))
      case Ok(next) =>
        if !NextPageWanted(next, p.paginator, page, asWritten) then Ok(None)
        else
          match env.initRequest(p, next)
          case Err(e) => Err(InitRequestFailed(e))
          case Ok(rq) =>
            match NewScraperSpec(p.(request := rq), [], deleted, asWritten, env.compiles)
            case Err(e) => Err(CompileFailed(e))
            case Ok(s) => Ok(Some(s))
  }

  /** A next page is started only when a next URL exists within the
      budget (page < MaxPages as written, page + 1 < MaxPages corrected),
      and its Scraper is bound to the next page's request; the corrected
      compile leaves the deleted set alone. */
  lemma PagerStepStarts(p: Payload, scraper: Scraper, page: nat, doc: Doc, env: Env, deleted: set<seq<nat>>,
                        asWritten: bool)
    ensures var r := PagerStep(p, scraper, page, doc, env, deleted, asWritten);
      r.Ok? && r.value.Some? ==>
        p.paginator.Some? && !p.paginator.value.infiniteScroll
        && env.nextPage(scraper.paginator, env.getURL(scraper.request), doc).Ok?
        && NextPageWanted(env.nextPage(scraper.paginator, env.getURL(scraper.request), doc).value, p.paginator, page,
                          asWritten)
        && (if asWritten then page < p.paginator.value.maxPages else page + 1 < p.paginator.value.maxPages)
        && env.initRequest(p, env.nextPage(scraper.paginator, env.getURL(scraper.request), doc).value).Ok?
        && r.value.value.0.request
           == env.initRequest(p, env.nextPage(scraper.paginator, env.getURL(scraper.request), doc).value).value
        && (!asWritten ==> r.value.value.1 == deleted)
  {
    var r := PagerStep(p, scraper, page, doc, env, deleted, asWritten);
    if r.Ok? && r.value.Some? {
      var next := env.nextPage(scraper.paginator, env.getURL(scraper.request), doc).value;
      var rq := env.initRequest(p, next).value;
      NoDeleteNewScraper(p.(request := rq), [], deleted, env.compiles);
    }
  }

  // ---------------------------------------------------------------------
  // One block

  /** The detail URLs an extracted value names: one for a string, each of
      a list of strings, none otherwise. */
  function DetailURLs(v: Value): seq<string>
  {
    match v
    case VStr(s) => [s]
    case VStrs(ss) => ss
    case _ => []
  }

  /** What one Part extracts from a block: "." stands for the block itself. */
  function PartValue(part: Part, sel: Selection, baseURL: string, env: Env): Value
  {
    var s := if part.selector == "." then sel else env.find(sel, part.selector);
    env.extract(part.extractor, s, baseURL)
  }

  function DetailsKey(part: Part): string
  {
    part.name + "_details"
  }

  /** The block map after one more Part: nil values are left out; a Part
      with Details and at least one detail URL adds `<part>_details`,
      holding the details UID. */
  function AddPart(m: Block, part: Part, sel: Selection, key: string, baseURL: string, env: Env): Block
  {
    var v := PartValue(part, sel, baseURL, env);
    if v == VNil then m
    else if part.details.Some? && |DetailURLs(v)| > 0 then m[part.name := v][DetailsKey(part) := VStr(env.crc(key + part.name))]
    else m[part.name := v]
  }

  /** The block map after the first n Parts, applied in order. */
  function BlockMap(parts: seq<Part>, n: nat, sel: Selection, key: string, baseURL: string, env: Env): Block
    requires n <= |parts|
  {
    if n == 0 then map[] else AddPart(BlockMap(parts, n - 1, sel, key, baseURL, env), parts[n - 1], sel, key, baseURL, env)
  }

  /** The keys of a block map: the names of the Parts that extracted
      something, and `<part>_details` for those with Details and detail
      URLs. */
  lemma {:induction false} BlockMapKeys(parts: seq<Part>, n: nat, sel: Selection, key: string, baseURL: string, env: Env)
    requires n <= |parts|
    ensures forall k :: k in BlockMap(parts, n, sel, key, baseURL, env) <==>
      exists i :: 0 <= i < n && PartValue(parts[i], sel, baseURL, env) != VNil
        && (k == parts[i].name
            || (k == DetailsKey(parts[i]) && parts[i].details.Some?
                && |DetailURLs(PartValue(parts[i], sel, baseURL, env))| > 0))
  {
    if n > 0 {
      BlockMapKeys(parts, n - 1, sel, key, baseURL, env);
    }
  }

  /** No Part name is another Part's details key. */
  predicate NoDetailsClash(parts: seq<Part>)
  {
    forall i, j :: 0 <= i < |parts| && 0 <= j < |parts| ==> parts[i].name != DetailsKey(parts[j])
  }

  /** With distinct names and no clash, every Part that extracted something
      finds its own value in the block map, and its details key holds the
      details UID `crc(blockKey + partName)`. */
  lemma {:induction false} BlockMapValues(parts: seq<Part>, n: nat, sel: Selection, key: string, baseURL: string, env: Env)
    requires n <= |parts|
    requires DistinctNames(parts) && NoDetailsClash(parts)
    ensures forall i :: 0 <= i < n && PartValue(parts[i], sel, baseURL, env) != VNil ==>
      parts[i].name in BlockMap(parts, n, sel, key, baseURL, env)
      && BlockMap(parts, n, sel, key, baseURL, env)[parts[i].name] == PartValue(parts[i], sel, baseURL, env)
    ensures forall i :: 0 <= i < n && PartValue(parts[i], sel, baseURL, env) != VNil && parts[i].details.Some?
                        && |DetailURLs(PartValue(parts[i], sel, baseURL, env))| > 0 ==>
      DetailsKey(parts[i]) in BlockMap(parts, n, sel, key, baseURL, env)
      && BlockMap(parts, n, sel, key, baseURL, env)[DetailsKey(parts[i])] == VStr(env.crc(key + parts[i].name))
  {
    if n > 0 {
      BlockMapValues(parts, n - 1, sel, key, baseURL, env);
      var last := parts[n - 1];
      forall i | 0 <= i < n - 1
        ensures parts[i].name != last.name && DetailsKey(parts[i]) != last.name
        ensures parts[i].name != DetailsKey(last) && DetailsKey(parts[i]) != DetailsKey(last)
      {
        SuffixCancel(parts[i].name, last.name, "_details");
      }
    }
  }

  lemma SuffixCancel(a: string, b: string, suffix: string)
    ensures a + suffix == b + suffix ==> a == b
  {
    if a + suffix == b + suffix {
      assert |a| == |b|;
      assert a == (a + suffix)[..|a|] == (b + suffix)[..|b|] == b;
    }
  }

  /** A recognised extractor type never ends in 's'. */
  lemma KnownTypeLastChar(t: string, lt: string)
    requires lt == ToLower(t)
    requires KnownType(lt)
    ensures |t| > 0 && t[|t| - 1] != 's'
  {
    LastOfKnown(lt);
    assert |lt| == |t|;
    ToLowerAt(t, |t| - 1);
    LowerLastNotS(t, lt);
  }

  lemma LowerLastNotS(t: string, lt: string)
    requires |lt| == |t| > 0 && lt[|lt| - 1] == LowerChar(t[|t| - 1]) && lt[|lt| - 1] != 's'
    ensures t[|t| - 1] != 's'
  {
  }

  lemma LastOfKnown(lt: string)
    requires KnownType(lt)
    ensures |lt| > 0 && lt[|lt| - 1] != 's'
  {
    var c := lt[|lt| - 1];
    if lt == "text" || lt == "count" || lt == "const" || lt == "alt" || lt == "height" {
      assert c == 't';
    } else if lt == "href" {
      assert c == 'f';
    } else if lt == "src" {
      assert c == 'c';
    } else if lt == "width" {
      assert c == 'h';
    } else if lt == "regex" {
      assert c == 'x';
    } else {
      assert lt == "html" || lt == "outerhtml";
      assert c == 'l';
    }
  }

  /** A name `<field>_<type>` with a recognised type is never a details key. */
  lemma PartNameNotDetailsKey(fieldName: string, t: string, other: string)
    requires KnownType(ToLower(t))
    ensures fieldName + "_" + t != other + "_details"
  {
    KnownTypeLastChar(t, ToLower(t));
    var a := fieldName + "_" + t;
    var d := other + "_details";
    assert a[|a| - 1] == t[|t| - 1];
    assert d[|d| - 1] == 's';
  }

  /** The last character of a compiled Part name is the last character of
      a recognised type, never the 's' of "_details": compiled Parts never
      clash with details keys. */
  lemma CompiledNoDetailsClash(p: Payload, compiles: string -> bool)
    requires Compile(p, compiles).Ok?
    ensures NoDetailsClash(Compile(p, compiles).value.parts)
  {
    var parts := Compile(p, compiles).value.parts;
    var pairs := RecognisedFields(p.fields, |p.fields|);
    CompileShape(p, compiles);
    RecognisedKnown(p.fields, |p.fields|);
    forall i, j | 0 <= i < |parts| && 0 <= j < |parts|
      ensures parts[i].name != DetailsKey(parts[j])
    {
      assert PartFor(parts[i], pairs[i]);
      assert pairs[i] in pairs;
      PartNameNotDetailsKey(pairs[i].0.name, pairs[i].1, parts[j].name);
    }
  }

  lemma {:induction false} RecognisedKnown(fs: seq<Field>, n: nat)
    requires n <= |fs|
    ensures forall q :: q in RecognisedFields(fs, n) ==> KnownType(ToLower(q.1))
  {
    if n > 0 {
      RecognisedKnown(fs, n - 1);
      RecognisedTypesKnown(fs[n - 1], |fs[n - 1].extractor.types|);
    }
  }

  lemma {:induction false} RecognisedTypesKnown(f: Field, k: nat)
    requires k <= |f.extractor.types|
    ensures forall q :: q in RecognisedTypes(f, k) ==> KnownType(ToLower(q.1))
  {
    if k > 0 {
      RecognisedTypesKnown(f, k - 1);
    }
  }


  // ---------------------------------------------------------------------
  // The methods

  predicate Grew(oldErrors: seq<TaskError>, errors: seq<TaskError>)
  {
    |oldErrors| <= |errors| && errors[..|oldErrors|] == oldErrors
  }

  predicate KeptRobots(oldRobots: map<string, Option<Robots.RobotsData>>, robots: map<string, Option<Robots.RobotsData>>)
  {
    forall h :: h in oldRobots ==> h in robots && robots[h] == oldRobots[h]
  }

  /** The fields of a Task, as a value. */
  datatype TaskState = TaskState(payload: Payload, id: string, errors: seq<TaskError>,
                                 robots: map<string, Option<Robots.RobotsData>>, parsed: bool,
                                 deleted: set<seq<nat>>)

  function StateOf(t: Task): TaskState
    reads t
  {
    TaskState(t.payload, t.id, t.errors, t.robots, t.parsed, t.deleted)
  }

  /** What a scrape may do to its Task: the payload and id stay, errors
      only grow, robots entries are kept, Parsed stays set, and only the
      as-written compile deletes from the Params maps. */
  predicate Advanced(a: TaskState, b: TaskState, asWritten: bool)
  {
    b.payload == a.payload && b.id == a.id && (!asWritten ==> b.deleted == a.deleted)
    && Grew(a.errors, b.errors) && KeptRobots(a.robots, b.robots) && (a.parsed ==> b.parsed)
  }

  lemma AdvancedTrans(a: TaskState, b: TaskState, c: TaskState, asWritten: bool)
    requires Advanced(a, b, asWritten) && Advanced(b, c, asWritten)
    ensures Advanced(a, c, asWritten)
  {
    GrewTrans(a.errors, b.errors, c.errors);
  }

  /** The page-keys entries below `page` are untouched. */
  predicate KeptBelow(before: map<nat, seq<nat>>, after: map<nat, seq<nat>>, page: nat)
  {
    (forall q :: q in before && q < page ==> q in after && after[q] == before[q])
    && (forall q :: q in after && q < page ==> q in before)
  }

  /** The pages of a chain that returned before calling wg.Done: every
      outcome but EmptyResults, which only the end of Task.scrape returns. */
  function Early(chain: seq<TaskError>): nat
  {
    if chain == [] then 0 else (if chain[0] == EmptyResults then 0 else 1) + Early(chain[1..])
  }

  /** A block's map, when non-empty, was written under its key at or after
      position `from` of the store's log. */
  predicate BlockLogged(log: seq<(string, Bytes)>, from: nat, scraper: Scraper, sel: Selection, key: string, env: Env)
  {
    var m := BlockMap(scraper.parts, |scraper.parts|, sel, key, env.getURL(scraper.request), env);
    from <= |log| && (|m| > 0 ==> LoggedSince(log, from, key, env.marshalBlock(m)))
  }

  /** Task.blockWorker for one block: the Parts in order, a detail scrape
      per detail URL, and the write of a non-empty block map. An empty map
      changes nothing at all. */
  method BlockWorker(t: Task, scraper: Scraper, sel: Selection, key: string, env: Env, store: BlockStore, fuel: nat,
                     asWritten: bool)
    returns (m: Block)
    modifies t, store
    ensures m == BlockMap(scraper.parts, |scraper.parts|, sel, key, env.getURL(scraper.request), env)
    ensures |m| > 0 ==>
      key in store.records && store.records[key] == env.marshalBlock(m) && t.parsed
      && LoggedSince(store.log, |old(store.log)|, key, env.marshalBlock(m))
    ensures |m| == 0 ==> store.records == old(store.records) && store.log == old(store.log) && StateOf(t) == old(StateOf(t))
    ensures old(store.log) <= store.log
    ensures Advanced(old(StateOf(t)), StateOf(t), asWritten)
    decreases fuel, 2
  {
    var url := env.getURL(scraper.request);
    m := map[];
    for i := 0 to |scraper.parts|
      invariant m == BlockMap(scraper.parts, i, sel, key, url, env)
      invariant |m| == 0 ==> store.records == old(store.records) && store.log == old(store.log) && StateOf(t) == old(StateOf(t))
      invariant old(store.log) <= store.log
      invariant Advanced(old(StateOf(t)), StateOf(t), asWritten)
    {
      ghost var before := StateOf(t);
      m := PartStep(t, scraper.parts[i], sel, key, url, m, env, store, fuel, asWritten);
      AdvancedTrans(old(StateOf(t)), before, StateOf(t), asWritten);
    }
    if |m| > 0 {
      t.parsed := true;
      store.Write(key, env.marshalBlock(m));
      assert store.log[|old(store.log)|..][|store.log| - 1 - |old(store.log)|] == (key, env.marshalBlock(m));
    }
  }

  /** One Part of Task.blockWorker: its value, unless nil, and for a Part
      with Details the detail scrapes of the URLs it names. */
  method PartStep(t: Task, part: Part, sel: Selection, key: string, url: string, m0: Block, env: Env, store: BlockStore,
                  fuel: nat, asWritten: bool)
    returns (m: Block)
    modifies t, store
    ensures m == AddPart(m0, part, sel, key, url, env)
    ensures |m| == 0 ==> store.records == old(store.records) && store.log == old(store.log) && StateOf(t) == old(StateOf(t))
    ensures old(store.log) <= store.log
    ensures Advanced(old(StateOf(t)), StateOf(t), asWritten)
    decreases fuel, 1
  {
    m := m0;
    var s := if part.selector == "." then sel else env.find(sel, part.selector);
    var v := env.extract(part.extractor, s, url);
    if v != VNil {
      m := m[part.name := v];
      if part.details.Some? {
        var urls := DetailURLs(v);
        var uid := env.crc(key + part.name);
        m := ScrapeDetails(t, part, urls, uid, m, env, store, fuel, asWritten);
      }
    }
  }

  /** The detail loop of Task.blockWorker: one detail scrape per URL, each
      under `uid` with its own WaitGroup (never waited for) and its page
      keys written there, and the block map's `<part>_details` set to
      `uid`. */
  method ScrapeDetails(t: Task, part: Part, urls: seq<string>, uid: string, m0: Block, env: Env, store: BlockStore,
                       fuel: nat, asWritten: bool)
    returns (m: Block)
    requires part.details.Some?
    modifies t, store
    ensures m == if |urls| == 0 then m0 else m0[DetailsKey(part) := VStr(uid)]
    ensures old(store.log) <= store.log
    ensures Advanced(old(StateOf(t)), StateOf(t), asWritten)
    decreases fuel, 0
  {
    m := m0;
    for j := 0 to |urls|
      invariant m == if j == 0 then m0 else m0[DetailsKey(part) := VStr(uid)]
      invariant old(store.log) <= store.log
      invariant Advanced(old(StateOf(t)), StateOf(t), asWritten)
    {
      var rq := ScrapeRequest(t.payload.request.kind, urls[j]);
      if fuel > 0 {
        ghost var before := StateOf(t);
        var _, _ := DetailScrape(t, part.details.value.(request := rq), uid, env, store, fuel - 1, asWritten);
        AdvancedTrans(old(StateOf(t)), before, StateOf(t), asWritten);
      }
      m := m[DetailsKey(part) := VStr(uid)];
    }
  }

  /** One detail scrape: a chain of its own, with fresh page keys and a
      WaitGroup nobody waits for, whose page keys are then written under
      `uid`. */
  method DetailScrape(t: Task, scraper: Scraper, uid: string, env: Env, store: BlockStore, fuel: nat, asWritten: bool)
    returns (ghost err: TaskError, ghost keys: map<nat, seq<nat>>)
    modifies t, store
    ensures uid in store.records && store.records[uid] == env.marshalKeys(keys)
    ensures forall q :: q in keys ==> keys[q] == Range(|keys[q]|)
    ensures err == EmptyResults ==> 0 in keys
    ensures err != EmptyResults ==> keys == map[]
    ensures old(store.log) <= store.log
    ensures Advanced(old(StateOf(t)), StateOf(t), asWritten)
    decreases fuel, 7
  {
    var detailKeys := new PageKeys();
    var wg := new WaitGroup();
    wg.Add();
    var e, chain := Scrape(t, 0, scraper, detailKeys, uid, wg, env, store, fuel, asWritten);
    store.Write(uid, env.marshalKeys(detailKeys.keys));
    err, keys := e, detailKeys.keys;
  }

  lemma GrewTrans(a: seq<TaskError>, b: seq<TaskError>, c: seq<TaskError>)
    requires Grew(a, b) && Grew(b, c)
    ensures Grew(a, c)
  {
    assert c[..|a|] == c[..|b|][..|a|];
  }

  lemma KeptTrans(a: map<string, Option<Robots.RobotsData>>, b: map<string, Option<Robots.RobotsData>>,
                  c: map<string, Option<Robots.RobotsData>>)
    requires KeptRobots(a, b) && KeptRobots(b, c)
    ensures KeptRobots(a, c)
  {
  }

  /** What Task.scrape returns and leaves behind once page `page` is
      fetched as `doc`: PagerStep's error, or EmptyResults with the page's
      block indices recorded and every non-empty block written under its
      key since position `from` of the store's log. */
  predicate FetchedOutcome(p: Payload, deleted: set<seq<nat>>, scraper: Scraper, page: nat, doc: Doc, uid: string,
                           env: Env, asWritten: bool, err: TaskError, keys: map<nat, seq<nat>>,
                           log: seq<(string, Bytes)>, from: nat)
  {
    match PagerStep(p, scraper, page, doc, env, deleted, asWritten)
    case Err(e) => err == e
    case Ok(_) =>
      var blocks := env.divide(scraper, doc);
      err == EmptyResults && page in keys && keys[page] == Range(|blocks|)
      && forall i :: 0 <= i < |blocks| ==> BlockLogged(log, from, scraper, blocks[i], BlockKey(uid, page, i), env)
  }

  /** Task.scrape for one page of a chain. It always ends with an error:
      the results slice is never filled, so a page that gets through
      returns EmptyResults, after calling wg.Done. As written, every
      earlier return skips wg.Done; corrected, every return calls it.
      `chain` holds this page's outcome, then those of the next pages it
      started, in order. */
  method Scrape(t: Task, page: nat, scraper: Scraper, keys: PageKeys, uid: string, wg: WaitGroup, env: Env,
                store: BlockStore, fuel: nat, asWritten: bool)
    returns (err: TaskError, ghost chain: seq<TaskError>)
    requires keys.Valid()
    modifies t, keys, store, wg
    ensures |chain| >= 1 && chain[0] == err
    ensures wg.count == old(wg.count) - 1 + (if asWritten then Early(chain) else 0)
    ensures keys.Valid() && KeptBelow(old(keys.keys), keys.keys, page)
    ensures forall i :: 0 <= i < |chain| && chain[i] == EmptyResults ==> page + i in keys.keys
    ensures old(store.log) <= store.log
    ensures Advanced(old(StateOf(t)), StateOf(t), asWritten)
    ensures err != EmptyResults ==>
      |chain| == 1 && keys.keys == old(keys.keys) && store.records == old(store.records)
      && store.log == old(store.log) && t.parsed == old(t.parsed)
    ensures var g := RobotsGate(old(t.robots), scraper.request, env);
      g.abort.Some? ==> err == g.abort.value && t.errors == old(t.errors) + g.added && t.robots == g.robots
    ensures var g := RobotsGate(old(t.robots), scraper.request, env);
      g.abort.None? ==>
        Grew(old(t.errors) + g.added, t.errors)
        && GatedOutcome(old(t.payload), old(t.deleted), scraper, page, uid, env, asWritten,
                        err, keys.keys, store.log, |old(store.log)|)
    decreases fuel, 6
  {
    ghost var g := RobotsGate(t.robots, scraper.request, env);
    var abort := CheckRobots(t, scraper.request, env);
    if abort.Some? {
      if !asWritten {
        wg.Done();
      }
      return abort.value, [abort.value];
    }
    ghost var mid := StateOf(t);
    assert mid.errors == old(t.errors) + g.added;
    err, chain := ScrapeGated(t, page, scraper, keys, uid, wg, env, store, fuel, asWritten);
    AdvancedTrans(old(StateOf(t)), mid, StateOf(t), asWritten);
  }

  /** What Task.scrape returns and leaves behind once past the robots
      check: the fetch error, or FetchedOutcome. */
  predicate GatedOutcome(p: Payload, deleted: set<seq<nat>>, scraper: Scraper, page: nat, uid: string,
                         env: Env, asWritten: bool, err: TaskError, keys: map<nat, seq<nat>>,
                         log: seq<(string, Bytes)>, from: nat)
  {
    match env.fetch(scraper.request)
    case Err(e) => err == FetchFailed(e)
    case Ok(doc) => FetchedOutcome(p, deleted, scraper, page, doc, uid, env, asWritten, err, keys, log, from)
  }

  /** Task.scrape past the robots check: the fetch, then the rest. */
  method ScrapeGated(t: Task, page: nat, scraper: Scraper, keys: PageKeys, uid: string, wg: WaitGroup, env: Env,
                     store: BlockStore, fuel: nat, asWritten: bool)
    returns (err: TaskError, ghost chain: seq<TaskError>)
    requires keys.Valid()
    modifies t, keys, store, wg
    ensures |chain| >= 1 && chain[0] == err
    ensures wg.count == old(wg.count) - 1 + (if asWritten then Early(chain) else 0)
    ensures keys.Valid() && KeptBelow(old(keys.keys), keys.keys, page)
    ensures forall i :: 0 <= i < |chain| && chain[i] == EmptyResults ==> page + i in keys.keys
    ensures old(store.log) <= store.log
    ensures Advanced(old(StateOf(t)), StateOf(t), asWritten)
    ensures err != EmptyResults ==>
      |chain| == 1 && keys.keys == old(keys.keys) && store.records == old(store.records)
      && store.log == old(store.log) && t.parsed == old(t.parsed)
    ensures GatedOutcome(old(t.payload), old(t.deleted), scraper, page, uid, env, asWritten,
                         err, keys.keys, store.log, |old(store.log)|)
    decreases fuel, 5
  {
    var doc := env.fetch(scraper.request);
    if doc.Err? {
      if !asWritten {
        wg.Done();
      }
      return FetchFailed(doc.error), [FetchFailed(doc.error)];
    }
    err, chain := ScrapeFetched(t, page, scraper, doc.value, keys, uid, wg, env, store, fuel, asWritten);
  }

  /** Task.scrape once the page is fetched: the pagination step, then the
      blocks, then wg.Done. */
  method ScrapeFetched(t: Task, page: nat, scraper: Scraper, doc: Doc, keys: PageKeys, uid: string, wg: WaitGroup,
                       env: Env, store: BlockStore, fuel: nat, asWritten: bool)
    returns (err: TaskError, ghost chain: seq<TaskError>)
    requires keys.Valid()
    modifies t, keys, store, wg
    ensures |chain| >= 1 && chain[0] == err
    ensures wg.count == old(wg.count) - 1 + (if asWritten then Early(chain) else 0)
    ensures keys.Valid() && KeptBelow(old(keys.keys), keys.keys, page)
    ensures forall i :: 0 <= i < |chain| && chain[i] == EmptyResults ==> page + i in keys.keys
    ensures old(store.log) <= store.log
    ensures Advanced(old(StateOf(t)), StateOf(t), asWritten)
    ensures err != EmptyResults ==>
      |chain| == 1 && keys.keys == old(keys.keys) && store.records == old(store.records)
      && store.log == old(store.log) && t.parsed == old(t.parsed)
    ensures FetchedOutcome(old(t.payload), old(t.deleted), scraper, page, doc, uid, env, asWritten,
                           err, keys.keys, store.log, |old(store.log)|)
    decreases fuel, 4
  {
    var pagerError, rest := NextPage(t, page, scraper, doc, keys, uid, wg, env, store, fuel, asWritten);
    if pagerError.Some? {
      if !asWritten {
        wg.Done();
      }
      return pagerError.value, [pagerError.value];
    }
    var blocks := env.divide(scraper, doc);
    ghost var mid := StateOf(t);
    ghost var keys1 := keys.keys;
    ScrapeBlocks(t, page, scraper, blocks, keys, uid, env, store, fuel, asWritten, |old(store.log)|);
    AdvancedTrans(old(StateOf(t)), mid, StateOf(t), asWritten);
    wg.Done();
    err, chain := EmptyResults, [EmptyResults] + rest;
    assert chain[1..] == rest;
    forall i | 0 <= i < |chain| && chain[i] == EmptyResults
      ensures page + i in keys.keys
    {
      if i > 0 {
        assert rest[i - 1] == EmptyResults;
        assert page + 1 + (i - 1) in keys1;
      }
    }
  }

  /** The block loop of Task.scrape: page `page` gets the block indices
      0..n-1, and block i is processed, and written when non-empty, under
      BlockKey(uid, page, i). Detail scrapes use page-keys maps of their
      own, so no other page's entry changes. */
  method ScrapeBlocks(t: Task, page: nat, scraper: Scraper, blocks: seq<Selection>, keys: PageKeys, uid: string,
                      env: Env, store: BlockStore, fuel: nat, asWritten: bool, ghost from: nat)
    requires from <= |store.log|
    modifies t, keys, store
    ensures keys.keys == old(keys.keys)[page := Range(|blocks|)]
    ensures old(store.log) <= store.log
    ensures forall i :: 0 <= i < |blocks| ==>
      BlockLogged(store.log, from, scraper, blocks[i], BlockKey(uid, page, i), env)
    ensures Advanced(old(StateOf(t)), StateOf(t), asWritten)
    decreases fuel, 3
  {
    keys.keys := keys.keys[page := []];
    for i := 0 to |blocks|
      invariant keys.keys == old(keys.keys)[page := Range(i)]
      invariant old(store.log) <= store.log
      invariant forall j :: 0 <= j < i ==> BlockLogged(store.log, from, scraper, blocks[j], BlockKey(uid, page, j), env)
      invariant Advanced(old(StateOf(t)), StateOf(t), asWritten)
    {
      keys.keys := keys.keys[page := keys.keys[page] + [i]];
      assert keys.keys[page] == Range(i + 1);
      ghost var log, before := store.log, StateOf(t);
      var _ := BlockWorker(t, scraper, blocks[i], BlockKey(uid, page, i), env, store, fuel, asWritten);
      AdvancedTrans(old(StateOf(t)), before, StateOf(t), asWritten);
      forall j | 0 <= j < i + 1
        ensures BlockLogged(store.log, from, scraper, blocks[j], BlockKey(uid, page, j), env)
      {
        var key := BlockKey(uid, page, j);
        var m := BlockMap(scraper.parts, |scraper.parts|, blocks[j], key, env.getURL(scraper.request), env);
        if |m| > 0 {
          if j < i {
            LoggedWiden(log, store.log, from, from, key, env.marshalBlock(m));
          } else {
            LoggedWiden(store.log, store.log, from, |log|, key, env.marshalBlock(m));
          }
        }
      }
    }
  }

  /** The pagination part of Task.scrape: starts the next page of the chain
      (sharing the page keys, the UID and the WaitGroup, after wg.Add) when
      PagerStep names one, recording the compile's deletions. `rest` is the
      outcome chain of the next page, empty when none was started. */
  method NextPage(t: Task, page: nat, scraper: Scraper, doc: Doc, keys: PageKeys, uid: string, wg: WaitGroup,
                  env: Env, store: BlockStore, fuel: nat, asWritten: bool)
    returns (abort: Option<TaskError>, ghost rest: seq<TaskError>)
    requires keys.Valid()
    modifies t, keys, store, wg
    ensures match PagerStep(old(t.payload), scraper, page, doc, env, old(t.deleted), asWritten)
      case Err(e) => abort == Some(e) && rest == []
      case Ok(next) => abort.None? && (rest != [] <==> next.Some? && fuel > 0)
    ensures rest == [] ==>
      keys.keys == old(keys.keys) && store.records == old(store.records) && store.log == old(store.log)
      && t.parsed == old(t.parsed) && wg.count == old(wg.count)
    ensures wg.count == old(wg.count) + (if asWritten then Early(rest) else 0)
    ensures keys.Valid() && KeptBelow(old(keys.keys), keys.keys, page + 1)
    ensures forall i :: 0 <= i < |rest| && rest[i] == EmptyResults ==> page + 1 + i in keys.keys
    ensures old(store.log) <= store.log
    ensures Advanced(old(StateOf(t)), StateOf(t), asWritten)
    decreases fuel, 2
  {
    rest := [];
    var p := t.payload;
    if p.paginator.Some? && !p.paginator.value.infiniteScroll {
      var next := env.nextPage(scraper.paginator, env.getURL(scraper.request), doc);
      if next.Err? {
        return Some(PagerFailed(next.error)), rest;
      }
      if NextPageWanted(next.value, p.paginator, page, asWritten) {
        var rq := env.initRequest(p, next.value);
        if rq.Err? {
          return Some(InitRequestFailed(rq.error)), rest;
        }
        var nextScraper := NewScraper(p.(request := rq.value), [], t.deleted, asWritten, env.compiles);
        if nextScraper.Err? {
          return Some(CompileFailed(nextScraper.error)), rest;
        }
        if !asWritten {
          NoDeleteNewScraper(p.(request := rq.value), [], t.deleted, env.compiles);
        }
        t.deleted := nextScraper.value.1;
        ghost var mid := StateOf(t);
        rest := StartNext(t, page, nextScraper.value.0, keys, uid, wg, env, store, fuel, asWritten);
        AdvancedTrans(old(StateOf(t)), mid, StateOf(t), asWritten);
      }
    }
    abort := None;
  }

  /** `tw.wg.Add(1); go t.scrape(&paginatorTW)`, within the fuel bound. */
  method StartNext(t: Task, page: nat, next: Scraper, keys: PageKeys, uid: string, wg: WaitGroup,
                   env: Env, store: BlockStore, fuel: nat, asWritten: bool)
    returns (ghost rest: seq<TaskError>)
    requires keys.Valid()
    modifies t, keys, store, wg
    ensures rest != [] <==> fuel > 0
    ensures rest == [] ==>
      keys.keys == old(keys.keys) && store.records == old(store.records) && store.log == old(store.log)
      && t.parsed == old(t.parsed) && wg.count == old(wg.count) && t.deleted == old(t.deleted)
    ensures wg.count == old(wg.count) + (if asWritten then Early(rest) else 0)
    ensures keys.Valid() && KeptBelow(old(keys.keys), keys.keys, page + 1)
    ensures forall i :: 0 <= i < |rest| && rest[i] == EmptyResults ==> page + 1 + i in keys.keys
    ensures old(store.log) <= store.log
    ensures Advanced(old(StateOf(t)), StateOf(t), asWritten)
    decreases fuel, 1
  {
    rest := [];
    if fuel > 0 {
      wg.Add();
      var _, chain := Scrape(t, page + 1, next, keys, uid, wg, env, store, fuel - 1, asWritten);
      rest := chain;
    }
  }

  // ---------------------------------------------------------------------
  // Task.Parse

  /** The output encoder Task.Parse picks: the Part names as the CSV
      header with ",", the payload's paginateResults for JSON (a nil
      pointer there panics), or XML. */
  function ParseEncoder(p: Payload, s: Scraper): (r: Result<Encoders.Encoder, TaskError>)
    ensures r == Err(NilPaginateResults) <==> ToLower(p.format) == "json" && p.paginateResults.None?
    ensures r == Err(InvalidFormat) <==> ToLower(p.format) !in {"csv", "json", "xml"}
    ensures r.Ok? && r.value.CSVEncoder? ==>
      ToLower(p.format) == "csv" && r.value.comma == "," && |r.value.partNames| == |s.parts|
      && forall i :: 0 <= i < |s.parts| ==> r.value.partNames[i] == s.parts[i].name
    ensures ToLower(p.format) == "json" && p.paginateResults.Some? ==> r == Ok(Encoders.JSONEncoder(p.paginateResults.value))
    ensures ToLower(p.format) == "xml" ==> r == Ok(Encoders.XMLEncoder)
  {
    var names := seq(|s.parts|, i requires 0 <= i < |s.parts| => s.parts[i].name);
    if ToLower(p.format) == "json" && p.paginateResults.None? then Err(NilPaginateResults)
    else
      match Encoders.NewEncoder(p.format, names, p.paginateResults == Some(true))
      case None => Err(InvalidFormat)
      case Some(e) => Ok(e)
  }

  /** The payload of the splash fallback pass, before its request. */
  function SplashPayload(p: Payload): Payload
  {
    p.(fetcherType := "splash")
  }

  /** The scrape passes of Task.Parse, each `wg.Add(1); scrape; wg.Wait()`:
      one pass, and when nothing was parsed and the request is not splash
      already, a second pass with the splash fetcher. A pass whose chain
      has a page that skipped wg.Done hangs. Some(e) is the error Task.Parse
      returns. `chains` holds the outcome chain of each pass. */
  method ScrapePasses(t: Task, scraper: Scraper, k: PageKeys, uid: string, wg: WaitGroup, env: Env, store: BlockStore,
                      fuel: nat, asWritten: bool)
    returns (failed: Option<TaskError>, ghost chains: seq<seq<TaskError>>)
    requires wg.count == 0 && k.Valid()
    modifies t, k, store, wg
    ensures 1 <= |chains| <= 2 && forall i :: 0 <= i < |chains| ==> |chains[i]| >= 1
    ensures failed == Some(Hung) <==> asWritten && Early(chains[|chains| - 1]) > 0
    ensures |chains| == 2 ==>
      (asWritten ==> Early(chains[0]) == 0) && !old(t.parsed) && old(t.payload).request.kind != SplashFetcher
      && env.initRequest(SplashPayload(old(t.payload)), "").Ok?
      && t.payload == SplashPayload(old(t.payload)).(request := env.initRequest(SplashPayload(old(t.payload)), "").value)
    ensures |chains| == 1 && !t.parsed && failed != Some(Hung) ==>
      old(t.payload).request.kind == SplashFetcher || env.initRequest(SplashPayload(old(t.payload)), "").Err?
    ensures failed.None? ==> t.parsed
    ensures t.parsed && failed != Some(Hung) ==> failed.None?
    ensures !t.parsed && failed != Some(Hung) ==>
      failed == Some(if |chains| == 1 && old(t.payload).request.kind != SplashFetcher
                     then InitRequestFailed(env.initRequest(SplashPayload(old(t.payload)), "").error)
                     else chains[|chains| - 1][0])
    ensures failed.None? && !old(t.parsed) ==> 0 in k.keys
    ensures k.Valid()
    ensures t.id == old(t.id) && Grew(old(t.errors), t.errors) && KeptRobots(old(t.robots), t.robots)
    ensures !asWritten ==> t.deleted == old(t.deleted)
  {
    var scraper := scraper;
    var err, hung, chain := Pass(t, scraper, k, uid, wg, env, store, fuel, asWritten);
    chains := [chain];
    if hung {
      return Some(Hung), chains;
    }
    failed := None;
    if !t.parsed {
      if t.payload.request.kind == SplashFetcher {
        return Some(err), chains;
      }
      ghost var errors, robots := t.errors, t.robots;
      t.payload := t.payload.(fetcherType := "splash");
      var request := env.initRequest(t.payload, "");
      if request.Err? {
        return Some(InitRequestFailed(request.error)), chains;
      }
      t.payload := t.payload.(request := request.value);
      scraper := scraper.(request := request.value);
      err, hung, chain := Pass(t, scraper, k, uid, wg, env, store, fuel, asWritten);
      chains := chains + [chain];
      GrewTrans(old(t.errors), errors, t.errors);
      KeptTrans(old(t.robots), robots, t.robots);
      if hung {
        return Some(Hung), chains;
      }
      if !t.parsed {
        return Some(err), chains;
      }
    }
  }

  /** One pass: `wg.Add(1)`, the scrape of page 0 and its chain, and
      `wg.Wait()`, which returns only when every page called Done. */
  method Pass(t: Task, scraper: Scraper, k: PageKeys, uid: string, wg: WaitGroup, env: Env, store: BlockStore,
              fuel: nat, asWritten: bool)
    returns (err: TaskError, hung: bool, ghost chain: seq<TaskError>)
    requires wg.count == 0 && k.Valid()
    modifies t, k, store, wg
    ensures |chain| >= 1 && chain[0] == err && err != Hung
    ensures hung <==> asWritten && Early(chain) > 0
    ensures !hung ==> wg.count == 0
    ensures !old(t.parsed) && t.parsed ==> 0 in k.keys
    ensures k.Valid()
    ensures Advanced(old(StateOf(t)), StateOf(t), asWritten)
  {
    wg.Add();
    err, chain := Scrape(t, 0, scraper, k, uid, wg, env, store, fuel, asWritten);
    hung := wg.count != 0;
    if !old(t.parsed) && t.parsed {
      assert chain[0] == EmptyResults;
    }
  }

  /** Task.Parse: compile, scrape from page 0 under UID crc(payloadMD5),
      fall back once to the splash fetcher when nothing was parsed, store
      the page keys under the UID, and encode. `encode` stands for the
      encoder's Encode on the (always nil) results. */
  method Parse(t: Task, env: Env, store: BlockStore, encode: Encoders.Encoder -> Result<Bytes, string>, fuel: nat,
               asWritten: bool)
    returns (r: Result<Bytes, TaskError>, ghost pageKeys: map<nat, seq<nat>>, ghost chains: seq<seq<TaskError>>)
    modifies t, store
    ensures var c := NewScraperSpec(old(t.payload), [], old(t.deleted), asWritten, env.compiles);
      c.Err? ==>
        r == Err(CompileFailed(c.error))
        && t.payload == old(t.payload) && t.errors == old(t.errors) && t.robots == old(t.robots)
        && t.parsed == old(t.parsed) && store.records == old(store.records)
    ensures var c := NewScraperSpec(old(t.payload), [], old(t.deleted), asWritten, env.compiles);
      c.Ok? ==>
        1 <= |chains| <= 2 && (forall i :: 0 <= i < |chains| ==> |chains[i]| >= 1)
        && (r == Err(Hung) <==> asWritten && Early(chains[|chains| - 1]) > 0)
        && (|chains| == 2 ==>
              !old(t.parsed) && old(t.payload).request.kind != SplashFetcher && env.initRequest(SplashPayload(old(t.payload)), "").Ok?)
        && (|chains| == 1 && !t.parsed && r != Err(Hung) ==>
              old(t.payload).request.kind == SplashFetcher || env.initRequest(SplashPayload(old(t.payload)), "").Err?)
        && (t.parsed && r != Err(Hung) ==>
              var uid := env.crc(old(t.payload).payloadMD5);
              uid in store.records && store.records[uid] == env.marshalKeys(pageKeys)
              && (forall q :: q in pageKeys ==> pageKeys[q] == Range(|pageKeys[q]|))
              && (!old(t.parsed) ==> 0 in pageKeys)
              && r == match ParseEncoder(old(t.payload), c.value.0)
                      case Err(e) => Err(e)
                      case Ok(enc) =>
                        match encode(enc)
                        case Err(msg) => Err(EncodeFailed(msg))
                        case Ok(out) => Ok(out))
    ensures !asWritten ==> r != Err(Hung)
    ensures !t.parsed ==> r.Err?
    ensures t.id == old(t.id) && Grew(old(t.errors), t.errors) && KeptRobots(old(t.robots), t.robots)
  {
    pageKeys := map[];
    chains := [];
    var compiled := NewScraper(t.payload, [], t.deleted, asWritten, env.compiles);
    if compiled.Err? {
      return Err(CompileFailed(compiled.error)), pageKeys, chains;
    }
    var p0 := t.payload;
    t.deleted := compiled.value.1;
    var scraper := compiled.value.0;
    var k := new PageKeys();
    var wg := new WaitGroup();
    var uid := env.crc(t.payload.payloadMD5);
    var failed;
    failed, chains := ScrapePasses(t, scraper, k, uid, wg, env, store, fuel, asWritten);
    if failed.Some? {
      return Err(failed.value), pageKeys, chains;
    }
    store.Write(uid, env.marshalKeys(k.keys));
    pageKeys := k.keys;
    var e := ParseEncoder(p0, scraper);
    if e.Err? {
      return Err(e.error), pageKeys, chains;
    }
    var out := encode(e.value);
    if out.Err? {
      return Err(EncodeFailed(out.error)), pageKeys, chains;
    }
    r := Ok(out.value);
  }
}
