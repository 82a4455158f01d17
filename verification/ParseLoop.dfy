/** The legacy parse service of parse/service.go: ParseService.scrape walks
    the pages of a payload, one after the other, checking each URL against
    robots.txt, extracting every piece of every block, and following the
    paginator until the URL is empty or MaxPages pages were fetched;
    ParseData then encodes the results as json, csv or xml.

    The fetch service, goquery, the extractors, the paginator, the cookie
    hand-over, the configuration builder and the json, csv and xml writers
    are the oracles of `Env`. The loop, which does not stop by itself when
    MaxPages is not positive and the paginator keeps finding pages, runs at
    most `fuel` pages. */
module ParseLoop {
  import opened Base
  import opened Blocks
  import Plan
  import Robots
  import Encoders

  /** The parts of a splash.Request the loop touches: the URL, and the
      cookies SetCookieToNextRequest hands over to the next page. */
  datatype Request = Request(url: string, cookies: string)

  /** A response of the fetch service; a goquery document; a selection. */
  datatype Response = Response(source: Bytes)
  datatype Doc = Doc(source: Bytes)
  datatype Selection = Selection(nodes: seq<nat>)

  /** One piece of a scrape.Config: the name its result is stored under,
      the selector inside the block and the extractor. */
  datatype Piece = Piece(name: string, selector: string, extractor: Plan.ExtractorKind)

  datatype Opts = Opts(maxPages: int, format: string, paginateResults: bool)

  datatype Config = Config(pieces: seq<Piece>, opts: Opts, csvHeader: seq<string>)

  /** scrape.ScrapeResults: the URLs fetched and, per page, its blocks. */
  datatype ScrapeResults = ScrapeResults(urls: seq<string>, results: seq<seq<Block>>)

  /** What the JSON encoder is given. */
  datatype JSONInput = PagedResults(res: ScrapeResults) | FlatBlocks(blocks: seq<Block>)

  datatype ParseError =
    | ConfigFailed(msg: string)
    | ScraperFailed(msg: string)
    | RobotsDataFailed(msg: string)
    | ForbiddenByRobots(url: string)
    | FetchFailed(msg: string)
    | ContentFailed(msg: string)
    | ExtractFailed(msg: string)
    | PagerFailed(msg: string)
    | XMLFailed(msg: string)
    | RequestNotSplash

  /** The calls into code outside the model. */
  datatype Env = Env(
    toConfig: Plan.Payload -> Result<Config, string>,         // Payload.PayloadToScrapeConfig
    getURL: Plan.ScrapeRequest -> string,                      // splash.Request.GetURL
    newScraper: Config -> Option<string>,                      // scrape.New, its error
    robotsData: string -> Result<Robots.RobotsData, string>,   // fetch.RobotstxtData
    allowed: (string, Robots.RobotsData) -> bool,              // fetch.AllowedByRobots
    fetch: Request -> Result<Response, string>,                // responseFromFetchService
    content: Response -> Result<Doc, string>,                  // GetContent, then the goquery document
    divide: Doc -> seq<Selection>,                             // Config.DividePage
    find: (Selection, string) -> Selection,                    // Selection.Find
    extract: (Plan.ExtractorKind, Selection) -> Result<Value, string>,
    nextPage: (string, Doc) -> Result<string, string>,         // Paginator.NextPage
    setCookie: (Response, Request) -> (Request, Option<string>), // SetCookieToNextRequest
    json: JSONInput -> Bytes,                                  // json.Encoder.Encode
    renderCSV: (seq<seq<string>>, char) -> Bytes,              // csv.Writer.Flush
    xmlItem: Block -> Result<Bytes, string>)                   // one mxj item element

  // ---------------------------------------------------------------------
  // One block, one page

  /** The selection a piece is extracted from: "." is the block itself. */
  function PieceSelection(piece: Piece, block: Selection, env: Env): Selection
  {
    if piece.selector == "." then block else env.find(block, piece.selector)
  }

  /** What extracting one piece from a block gives. */
  function PieceValue(piece: Piece, block: Selection, env: Env): Result<Value, string>
  {
    env.extract(piece.extractor, PieceSelection(piece, block, env))
  }

  /** The results of one block: the pieces in order, each non-nil value
      stored under the piece's name; the first extractor error aborts. */
  function BlockResult(pieces: seq<Piece>, block: Selection, env: Env): Result<Block, string>
  {
    if pieces == [] then Ok(map[])
    else
      match BlockResult(pieces[..|pieces| - 1], block, env)
      case Err(e) => Err(e)
      case Ok(b) =>
        var piece := pieces[|pieces| - 1];
        match PieceValue(piece, block, env)
        case Err(e) => Err(e)
        case Ok(v) => if v == VNil then Ok(b) else Ok(b[piece.name := v])
  }

  /** The blocks of one page: every block's results in order, the empty
      ones left out; the first extractor error aborts. */
  function PageBlocks(pieces: seq<Piece>, blocks: seq<Selection>, env: Env): Result<seq<Block>, string>
  {
    if blocks == [] then Ok([])
    else
      match PageBlocks(pieces, blocks[..|blocks| - 1], env)
      case Err(e) => Err(e)
      case Ok(bs) =>
        match BlockResult(pieces, blocks[|blocks| - 1], env)
        case Err(e) => Err(e)
        case Ok(b) => Ok(if |b| > 0 then bs + [b] else bs)
  }

  /** The nested block and piece loops of ParseService.scrape. */
  method ExtractPage(pieces: seq<Piece>, blocks: seq<Selection>, env: Env) returns (r: Result<seq<Block>, string>)
    ensures r == PageBlocks(pieces, blocks, env)
  {
    var results: seq<Block> := [];
    for i := 0 to |blocks|
      invariant PageBlocks(pieces, blocks[..i], env) == Ok(results)
    {
      assert blocks[..i + 1][..i] == blocks[..i];
      var block := blocks[i];
      var blockResults: Block := map[];
      for j := 0 to |pieces|
        invariant BlockResult(pieces[..j], block, env) == Ok(blockResults)
      {
        assert pieces[..j + 1][..j] == pieces[..j];
        var piece := pieces[j];
        var sel := block;
        if piece.selector != "." {
          sel := env.find(sel, piece.selector);
        }
        var pieceResults := env.extract(piece.extractor, sel);
        if pieceResults.Err? {
          assert BlockResult(pieces[..j + 1], block, env).Err?;
          BlockErrStays(pieces, block, env, j + 1);
          PageErrStays(pieces, blocks, env, i + 1);
          return Err(pieceResults.error);
        }
        if pieceResults.value == VNil {
          continue;
        }
        blockResults := blockResults[piece.name := pieceResults.value];
      }
      assert pieces[..|pieces|] == pieces;
      if |blockResults| > 0 {
        results := results + [blockResults];
      }
    }
    assert blocks[..|blocks|] == blocks;
    r := Ok(results);
  }

  lemma {:induction false} BlockErrStays(pieces: seq<Piece>, block: Selection, env: Env, k: nat)
    requires k <= |pieces| && BlockResult(pieces[..k], block, env).Err?
    ensures BlockResult(pieces, block, env) == BlockResult(pieces[..k], block, env)
    decreases |pieces| - k
  {
    if k < |pieces| {
      assert pieces[..k + 1][..k] == pieces[..k];
      BlockErrStays(pieces, block, env, k + 1);
    } else {
      assert pieces[..k] == pieces;
    }
  }

  /** A block error aborts the page: once the first i blocks include a
      failing one, the page's result is that error. */
  lemma {:induction false} PageErrStays(pieces: seq<Piece>, blocks: seq<Selection>, env: Env, k: nat)
    requires 0 < k <= |blocks| && BlockResult(pieces, blocks[k - 1], env).Err?
    requires PageBlocks(pieces, blocks[..k - 1], env).Ok?
    ensures PageBlocks(pieces, blocks, env) == Err(BlockResult(pieces, blocks[k - 1], env).error)
  {
    assert blocks[..k][..k - 1] == blocks[..k - 1];
    PageErrFrom(pieces, blocks, env, k);
  }

  lemma {:induction false} PageErrFrom(pieces: seq<Piece>, blocks: seq<Selection>, env: Env, k: nat)
    requires k <= |blocks| && PageBlocks(pieces, blocks[..k], env).Err?
    ensures PageBlocks(pieces, blocks, env) == PageBlocks(pieces, blocks[..k], env)
    decreases |blocks| - k
  {
    if k < |blocks| {
      assert blocks[..k + 1][..k] == blocks[..k];
      PageErrFrom(pieces, blocks, env, k + 1);
    } else {
      assert blocks[..k] == blocks;
    }
  }

  /** A block fails exactly when one of its pieces fails, and then with the
      first failing piece's error; otherwise a name is present exactly when
      some piece of that name extracted a non-nil value. */
  lemma {:induction false} BlockResultMeaning(pieces: seq<Piece>, block: Selection, env: Env)
    ensures BlockResult(pieces, block, env).Err? <==>
              exists i :: 0 <= i < |pieces| && PieceValue(pieces[i], block, env).Err?
    ensures BlockResult(pieces, block, env).Err? ==>
              exists i :: 0 <= i < |pieces| && PieceValue(pieces[i], block, env).Err?
                          && BlockResult(pieces, block, env).error == PieceValue(pieces[i], block, env).error
                          && forall j :: 0 <= j < i ==> PieceValue(pieces[j], block, env).Ok?
    ensures BlockResult(pieces, block, env).Ok? ==>
              forall k :: k in BlockResult(pieces, block, env).value <==>
                exists i :: 0 <= i < |pieces| && pieces[i].name == k && PieceValue(pieces[i], block, env) != Ok(VNil)
  {
    if pieces != [] {
      var init := pieces[..|pieces| - 1];
      var last := pieces[|pieces| - 1];
      BlockResultMeaning(init, block, env);
      assert forall i :: 0 <= i < |init| ==> init[i] == pieces[i];
      if BlockResult(init, block, env).Err? {
        var i :| 0 <= i < |init| && PieceValue(init[i], block, env).Err?
                 && BlockResult(init, block, env).error == PieceValue(init[i], block, env).error
                 && forall j :: 0 <= j < i ==> PieceValue(init[j], block, env).Ok?;
        assert PieceValue(pieces[i], block, env).Err?;
      } else if PieceValue(last, block, env).Err? {
        var i := |pieces| - 1;
        assert forall j :: 0 <= j < i ==> PieceValue(pieces[j], block, env).Ok?;
      } else {
        var b := BlockResult(init, block, env).value;
        forall k
          ensures k in BlockResult(pieces, block, env).value <==>
                  exists i :: 0 <= i < |pieces| && pieces[i].name == k && PieceValue(pieces[i], block, env) != Ok(VNil)
        {
          if k in BlockResult(pieces, block, env).value && k !in b {
            assert pieces[|pieces| - 1].name == k;
          }
        }
      }
    }
  }

  /** The value of a block under a name is what the last piece of that name
      with a non-nil result extracted; with distinct names, each piece's own
      value. */
  lemma {:induction false} BlockResultValue(pieces: seq<Piece>, block: Selection, env: Env, i: nat)
    requires i < |pieces| && BlockResult(pieces, block, env).Ok?
    requires forall j :: 0 <= j < |pieces| && j != i ==> pieces[j].name != pieces[i].name
    requires PieceValue(pieces[i], block, env) != Ok(VNil)
    ensures pieces[i].name in BlockResult(pieces, block, env).value
    ensures PieceValue(pieces[i], block, env) == Ok(BlockResult(pieces, block, env).value[pieces[i].name])
  {
    var init := pieces[..|pieces| - 1];
    assert BlockResult(init, block, env).Ok?;
    if i < |pieces| - 1 {
      assert forall j :: 0 <= j < |init| && j != i ==> init[j].name != init[i].name;
      BlockResultValue(init, block, env, i);
    }
  }

  /** Every block's results, in block order; the first error aborts. */
  function BlockResults(pieces: seq<Piece>, blocks: seq<Selection>, env: Env): Result<seq<Block>, string>
  {
    if blocks == [] then Ok([])
    else
      match BlockResults(pieces, blocks[..|blocks| - 1], env)
      case Err(e) => Err(e)
      case Ok(bs) =>
        match BlockResult(pieces, blocks[|blocks| - 1], env)
        case Err(e) => Err(e)
        case Ok(b) => Ok(bs + [b])
  }

  predicate NonEmpty(b: Block)
  {
    |b| > 0
  }

  /** The block results succeed exactly when every block does, and then
      hold each block's results at its own index. */
  lemma {:induction false} BlockResultsMeaning(pieces: seq<Piece>, blocks: seq<Selection>, env: Env)
    ensures BlockResults(pieces, blocks, env).Ok? <==>
              forall i :: 0 <= i < |blocks| ==> BlockResult(pieces, blocks[i], env).Ok?
    ensures BlockResults(pieces, blocks, env).Ok? ==>
              |BlockResults(pieces, blocks, env).value| == |blocks|
              && forall i :: 0 <= i < |blocks| ==>
                   BlockResult(pieces, blocks[i], env) == Ok(BlockResults(pieces, blocks, env).value[i])
  {
    if blocks != [] {
      var init := blocks[..|blocks| - 1];
      BlockResultsMeaning(pieces, init, env);
      assert forall i :: 0 <= i < |init| ==> init[i] == blocks[i];
    }
  }

  /** A page is the non-empty block results, in block order, and fails
      exactly when some block does. */
  lemma {:induction false} PageBlocksMeaning(pieces: seq<Piece>, blocks: seq<Selection>, env: Env)
    ensures PageBlocks(pieces, blocks, env)
            == match BlockResults(pieces, blocks, env)
               case Err(e) => Err(e)
               case Ok(bs) => Ok(Filter(bs, NonEmpty))
  {
    if blocks != [] {
      PageBlocksMeaning(pieces, blocks[..|blocks| - 1], env);
      match BlockResults(pieces, blocks[..|blocks| - 1], env)
      case Err(_) =>
      case Ok(bs) =>
        match BlockResult(pieces, blocks[|blocks| - 1], env)
        case Err(_) =>
        case Ok(b) =>
          assert BlockResults(pieces, blocks, env) == Ok(bs + [b]);
          FilterAppend(bs, b, NonEmpty);
          assert Filter(bs, NonEmpty) + [] == Filter(bs, NonEmpty);
          assert PageBlocks(pieces, blocks, env) == Ok(Filter(bs + [b], NonEmpty));
    }
  }

  /** Every block a page keeps is non-empty. */
  lemma PageBlocksNonEmpty(pieces: seq<Piece>, blocks: seq<Selection>, env: Env)
    requires PageBlocks(pieces, blocks, env).Ok?
    ensures forall j :: 0 <= j < |PageBlocks(pieces, blocks, env).value| ==> |PageBlocks(pieces, blocks, env).value[j]| > 0
  {
    PageBlocksMeaning(pieces, blocks, env);
    var bs := BlockResults(pieces, blocks, env).value;
    forall j | 0 <= j < |Filter(bs, NonEmpty)|
      ensures NonEmpty(Filter(bs, NonEmpty)[j])
    {
      assert Filter(bs, NonEmpty)[j] in Filter(bs, NonEmpty);
    }
  }

  // ---------------------------------------------------------------------
  // The pagination loop

  /** The loop's stop test: no URL, or MaxPages pages already fetched. */
  predicate Stop(cfg: Config, url: string, numPages: nat)
  {
    |url| == 0 || (cfg.opts.maxPages > 0 && numPages >= cfg.opts.maxPages)
  }

  /** The pages from request `req` on, `numPages` pages having been
      fetched, with at most `fuel` more. With `robotsFirst` the URL is
      checked against robots.txt before the stop test, as
      parse/service.go does; without it, only a URL about to be fetched is
      checked. The next request is the one the cookie hand-over gives,
      whatever its error, carrying the paginator's URL. */
  function Pages(cfg: Config, env: Env, robots: Robots.RobotsData, req: Request, numPages: nat, fuel: nat,
                 robotsFirst: bool): Result<ScrapeResults, ParseError>
    decreases fuel
  {
    var url := req.url;
    if robotsFirst && !env.allowed(url, robots) then Err(ForbiddenByRobots(url))
    else if Stop(cfg, url, numPages) || fuel == 0 then Ok(ScrapeResults([], []))
    else if !robotsFirst && !env.allowed(url, robots) then Err(ForbiddenByRobots(url))
    else
      match env.fetch(req)
      case Err(e) => Err(FetchFailed(e))
      case Ok(resp) =>
        match env.content(resp)
        case Err(e) => Err(ContentFailed(e))
        case Ok(doc) =>
          match PageBlocks(cfg.pieces, env.divide(doc), env)
          case Err(e) => Err(ExtractFailed(e))
          case Ok(page) =>
            match env.nextPage(url, doc)
            case Err(e) => Err(PagerFailed(e))
            case Ok(next) =>
              var req' := env.setCookie(resp, req).0.(url := next);
              match Pages(cfg, env, robots, req', numPages + 1, fuel - 1, robotsFirst)
              case Err(e) => Err(e)
              case Ok(rest) => Ok(ScrapeResults([url] + rest.urls, [page] + rest.results))
  }

  /** The pages accumulated so far, followed by the rest of the run. */
  function Prepend(done: ScrapeResults, rest: Result<ScrapeResults, ParseError>): Result<ScrapeResults, ParseError>
  {
    match rest
    case Err(e) => Err(e)
    case Ok(r) => Ok(ScrapeResults(done.urls + r.urls, done.results + r.results))
  }

  /** ParseService.scrape: robots data is fetched once, before any page,
      and its error aborts; `robotsFirst` selects the source's order of the
      robots check and the stop test (true) or the corrected one. */
  function ScrapeSpec(cfg: Config, req: Request, env: Env, fuel: nat, robotsFirst: bool): Result<ScrapeResults, ParseError>
  {
    match env.robotsData(req.url)
    case Err(e) => Err(RobotsDataFailed(e))
    case Ok(robots) => Pages(cfg, env, robots, req, 0, fuel, robotsFirst)
  }

  /** ParseService.scrape: the pagination loop over url, numPages and the
      accumulated results. */
  method Scrape(cfg: Config, req0: Request, env: Env, fuel: nat, robotsFirst: bool)
    returns (r: Result<ScrapeResults, ParseError>)
    ensures r == ScrapeSpec(cfg, req0, env, fuel, robotsFirst)
  {
    var url := req0.url;
    var robotsData := env.robotsData(url);
    if robotsData.Err? {
      return Err(RobotsDataFailed(robotsData.error));
    }
    var robots := robotsData.value;
    var req := req0;
    var res := ScrapeResults([], []);
    var numPages: nat := 0;
    assert ScrapeSpec(cfg, req0, env, fuel, robotsFirst) == Pages(cfg, env, robots, req, 0, fuel, robotsFirst);
    PrependEmpty(Pages(cfg, env, robots, req, 0, fuel, robotsFirst));
    while true
      invariant numPages <= fuel && url == req.url
      invariant |res.urls| == numPages == |res.results|
      invariant ScrapeSpec(cfg, req0, env, fuel, robotsFirst)
                == Prepend(res, Pages(cfg, env, robots, req, numPages, fuel - numPages, robotsFirst))
      decreases fuel - numPages
    {
      if robotsFirst && !env.allowed(url, robots) {
        return Err(ForbiddenByRobots(url));
      }
      if Stop(cfg, url, numPages) || numPages == fuel {
        break;
      }
      if !robotsFirst && !env.allowed(url, robots) {
        return Err(ForbiddenByRobots(url));
      }
      var sResponse := env.fetch(req);
      if sResponse.Err? {
        return Err(FetchFailed(sResponse.error));
      }
      var doc := env.content(sResponse.value);
      if doc.Err? {
        return Err(ContentFailed(doc.error));
      }
      var results := ExtractPage(cfg.pieces, env.divide(doc.value), env);
      if results.Err? {
        return Err(ExtractFailed(results.error));
      }
      var next := env.nextPage(url, doc.value);
      if next.Err? {
        return Err(PagerFailed(next.error));
      }
      ghost var rest := Pages(cfg, env, robots, env.setCookie(sResponse.value, req).0.(url := next.value),
                              numPages + 1, fuel - numPages - 1, robotsFirst);
      assert Pages(cfg, env, robots, req, numPages, fuel - numPages, robotsFirst)
             == Prepend(ScrapeResults([url], [results.value]), rest);
      res := ScrapeResults(res.urls + [url], res.results + [results.value]);
      numPages := numPages + 1;
      url := next.value;
      var (sRequest, cookieErr) := env.setCookie(sResponse.value, req);
      req := sRequest.(url := url);
      assert res.urls == (res.urls[..|res.urls| - 1]) + [res.urls[|res.urls| - 1]];
      PrependAssoc(ScrapeResults(res.urls[..|res.urls| - 1], res.results[..|res.results| - 1]),
                   ScrapeResults([res.urls[|res.urls| - 1]], [results.value]), rest);
    }
    assert Pages(cfg, env, robots, req, numPages, fuel - numPages, robotsFirst) == Ok(ScrapeResults([], []));
    assert res.urls + [] == res.urls && res.results + [] == res.results;
    r := Ok(res);
  }

  lemma PrependEmpty(rest: Result<ScrapeResults, ParseError>)
    ensures Prepend(ScrapeResults([], []), rest) == rest
  {
    if rest.Ok? {
      assert [] + rest.value.urls == rest.value.urls && [] + rest.value.results == rest.value.results;
    }
  }

  lemma PrependAssoc(a: ScrapeResults, b: ScrapeResults, rest: Result<ScrapeResults, ParseError>)
    ensures Prepend(a, Prepend(b, rest)) == Prepend(ScrapeResults(a.urls + b.urls, a.results + b.results), rest)
  {
    if rest.Ok? {
      assert a.urls + (b.urls + rest.value.urls) == a.urls + b.urls + rest.value.urls;
      assert a.results + (b.results + rest.value.results) == a.results + b.results + rest.value.results;
    }
  }

  // ---------------------------------------------------------------------
  // Properties of the loop

  /** One URL and one page per fetched page, no more than the fuel, and
      with a positive MaxPages no more than the pages it leaves. */
  lemma {:induction false} PagesCount(cfg: Config, env: Env, robots: Robots.RobotsData, req: Request,
                                      numPages: nat, fuel: nat, robotsFirst: bool)
    requires Pages(cfg, env, robots, req, numPages, fuel, robotsFirst).Ok?
    ensures var r := Pages(cfg, env, robots, req, numPages, fuel, robotsFirst).value;
      |r.urls| == |r.results| <= fuel
      && (cfg.opts.maxPages > 0 && numPages <= cfg.opts.maxPages ==> numPages + |r.urls| <= cfg.opts.maxPages)
    decreases fuel
  {
    if !(Stop(cfg, req.url, numPages) || fuel == 0) {
      var resp := env.fetch(req).value;
      var doc := env.content(resp).value;
      var next := env.nextPage(req.url, doc).value;
      PagesCount(cfg, env, robots, env.setCookie(resp, req).0.(url := next), numPages + 1, fuel - 1, robotsFirst);
    }
  }

  /** Every fetched URL is non-empty and allowed by robots.txt, and every
      recorded block is non-empty. */
  lemma {:induction false} PagesContents(cfg: Config, env: Env, robots: Robots.RobotsData, req: Request,
                                         numPages: nat, fuel: nat, robotsFirst: bool)
    requires Pages(cfg, env, robots, req, numPages, fuel, robotsFirst).Ok?
    ensures var r := Pages(cfg, env, robots, req, numPages, fuel, robotsFirst).value;
      (forall i :: 0 <= i < |r.urls| ==> |r.urls[i]| > 0 && env.allowed(r.urls[i], robots))
      && (forall i, j :: 0 <= i < |r.results| && 0 <= j < |r.results[i]| ==> |r.results[i][j]| > 0)
    decreases fuel
  {
    if !(Stop(cfg, req.url, numPages) || fuel == 0) {
      var resp := env.fetch(req).value;
      var doc := env.content(resp).value;
      var next := env.nextPage(req.url, doc).value;
      var req' := env.setCookie(resp, req).0.(url := next);
      PagesContents(cfg, env, robots, req', numPages + 1, fuel - 1, robotsFirst);
      PageBlocksNonEmpty(cfg.pieces, env.divide(doc), env);
      var rest := Pages(cfg, env, robots, req', numPages + 1, fuel - 1, robotsFirst).value;
      var r := Pages(cfg, env, robots, req, numPages, fuel, robotsFirst).value;
      assert r.urls == [req.url] + rest.urls;
      assert r.results == [PageBlocks(cfg.pieces, env.divide(doc), env).value] + rest.results;
    }
  }

  /** The whole scrape: as many URLs as result pages, at most MaxPages of
      them when MaxPages is positive, each allowed by robots.txt. */
  lemma ScrapeBound(cfg: Config, req: Request, env: Env, fuel: nat, robotsFirst: bool)
    requires ScrapeSpec(cfg, req, env, fuel, robotsFirst).Ok?
    ensures var r := ScrapeSpec(cfg, req, env, fuel, robotsFirst).value;
      |r.urls| == |r.results| <= fuel
      && (cfg.opts.maxPages > 0 ==> |r.urls| <= cfg.opts.maxPages)
      && (forall i :: 0 <= i < |r.urls| ==> |r.urls[i]| > 0 && env.allowed(r.urls[i], env.robotsData(req.url).value))
  {
    PagesCount(cfg, env, env.robotsData(req.url).value, req, 0, fuel, robotsFirst);
    PagesContents(cfg, env, env.robotsData(req.url).value, req, 0, fuel, robotsFirst);
  }

  /** With a positive MaxPages the fuel bound is never what stops the loop:
      any fuel covering the remaining pages gives the same result. */
  lemma {:induction false} FuelEnough(cfg: Config, env: Env, robots: Robots.RobotsData, req: Request,
                                      numPages: nat, fuel: nat, fuel': nat, robotsFirst: bool)
    requires cfg.opts.maxPages > 0 && numPages + fuel >= cfg.opts.maxPages && fuel' >= fuel
    ensures Pages(cfg, env, robots, req, numPages, fuel', robotsFirst) == Pages(cfg, env, robots, req, numPages, fuel, robotsFirst)
    decreases fuel
  {
    if !Stop(cfg, req.url, numPages) {
      assert fuel > 0 && fuel' > 0;
      match env.fetch(req)
      case Err(_) =>
      case Ok(resp) =>
        match env.content(resp)
        case Err(_) =>
        case Ok(doc) =>
          match env.nextPage(req.url, doc)
          case Err(_) =>
          case Ok(next) =>
            FuelEnough(cfg, env, robots, env.setCookie(resp, req).0.(url := next), numPages + 1, fuel - 1, fuel' - 1, robotsFirst);
    }
  }

  /** The cookie hand-over's error is only logged: replacing it changes
      nothing. */
  lemma {:induction false} CookieErrorIgnored(cfg: Config, env: Env, robots: Robots.RobotsData, req: Request,
                                              numPages: nat, fuel: nat, robotsFirst: bool,
                                              cookieErr: (Response, Request) -> Option<string>)
    ensures var env' := env.(setCookie := (resp, rq) => (env.setCookie(resp, rq).0, cookieErr(resp, rq)));
      Pages(cfg, env', robots, req, numPages, fuel, robotsFirst) == Pages(cfg, env, robots, req, numPages, fuel, robotsFirst)
    decreases fuel
  {
    var env' := env.(setCookie := (resp, rq) => (env.setCookie(resp, rq).0, cookieErr(resp, rq)));
    if fuel > 0 {
      match env.fetch(req)
      case Err(_) =>
      case Ok(resp) =>
        match env.content(resp)
        case Err(_) =>
        case Ok(doc) =>
          PageBlocksEnv(cfg.pieces, env.divide(doc), env, env');
          match env.nextPage(req.url, doc)
          case Err(_) =>
          case Ok(next) =>
            CookieErrorIgnored(cfg, env, robots, env.setCookie(resp, req).0.(url := next), numPages + 1, fuel - 1,
                               robotsFirst, cookieErr);
    }
  }

  /** Extraction does not look at the cookie hand-over. */
  lemma {:induction false} PageBlocksEnv(pieces: seq<Piece>, blocks: seq<Selection>, env: Env, env': Env)
    requires env'.extract == env.extract && env'.find == env.find
    ensures PageBlocks(pieces, blocks, env') == PageBlocks(pieces, blocks, env)
  {
    if blocks != [] {
      PageBlocksEnv(pieces, blocks[..|blocks| - 1], env, env');
      BlockResultEnv(pieces, blocks[|blocks| - 1], env, env');
    }
  }

  lemma {:induction false} BlockResultEnv(pieces: seq<Piece>, block: Selection, env: Env, env': Env)
    requires env'.extract == env.extract && env'.find == env.find
    ensures BlockResult(pieces, block, env') == BlockResult(pieces, block, env)
  {
    if pieces != [] {
      BlockResultEnv(pieces[..|pieces| - 1], block, env, env');
    }
  }

  // ---------------------------------------------------------------------
  // The robots check before the stop test

  /** Whenever the loop as written succeeds, the corrected loop gives the
      same pages: the two differ only where the source refuses a URL it
      would never have fetched. */
  lemma {:induction false} AsWrittenImpliesCorrected(cfg: Config, env: Env, robots: Robots.RobotsData, req: Request,
                                                     numPages: nat, fuel: nat)
    requires Pages(cfg, env, robots, req, numPages, fuel, true).Ok?
    ensures Pages(cfg, env, robots, req, numPages, fuel, false) == Pages(cfg, env, robots, req, numPages, fuel, true)
    decreases fuel
  {
    if !(Stop(cfg, req.url, numPages) || fuel == 0) {
      var resp := env.fetch(req).value;
      var doc := env.content(resp).value;
      var next := env.nextPage(req.url, doc).value;
      AsWrittenImpliesCorrected(cfg, env, robots, env.setCookie(resp, req).0.(url := next), numPages + 1, fuel - 1);
    }
  }

  /** The two loops differ only by a ForbiddenByRobots error of the loop as
      written. */
  lemma {:induction false} CorrectedDiffersByRobots(cfg: Config, env: Env, robots: Robots.RobotsData, req: Request,
                                                    numPages: nat, fuel: nat)
    requires Pages(cfg, env, robots, req, numPages, fuel, true) != Pages(cfg, env, robots, req, numPages, fuel, false)
    ensures Pages(cfg, env, robots, req, numPages, fuel, true).Err?
    ensures Pages(cfg, env, robots, req, numPages, fuel, true).error.ForbiddenByRobots?
    decreases fuel
  {
    if Pages(cfg, env, robots, req, numPages, fuel, true).Ok? {
      AsWrittenImpliesCorrected(cfg, env, robots, req, numPages, fuel);
    } else if env.allowed(req.url, robots) && !(Stop(cfg, req.url, numPages) || fuel == 0) {
      var resp := env.fetch(req).value;
      var doc := env.content(resp).value;
      var next := env.nextPage(req.url, doc).value;
      CorrectedDiffersByRobots(cfg, env, robots, env.setCookie(resp, req).0.(url := next), numPages + 1, fuel - 1);
    }
  }

  const ShopURL: string := "http://shop.example/"
  const PrivateURL: string := "http://shop.example/private"

  /** A site whose first page links to a page robots.txt refuses. */
  function ShopEnv(env: Env): Env
  {
    env.(allowed := (u: string, _: Robots.RobotsData) => u != PrivateURL,
         fetch := (_: Request) => Ok(Response([])),
         content := (_: Response) => Ok(Doc([])),
         divide := (_: Doc) => [],
         nextPage := (_: string, _: Doc) => Ok(PrivateURL),
         setCookie := (_: Response, rq: Request) => (rq, None))
  }

  /** With MaxPages 1 the scrape has what it needs after the first page,
      yet the loop as written checks the private link it will never fetch
      and fails; the corrected loop returns the first page. */
  lemma RobotsBeforeStopAsWritten(cfg: Config, env: Env, robots: Robots.RobotsData)
    requires cfg.opts.maxPages == 1
    ensures Pages(cfg, ShopEnv(env), robots, Request(ShopURL, ""), 0, 2, true) == Err(ForbiddenByRobots(PrivateURL))
    ensures Pages(cfg, ShopEnv(env), robots, Request(ShopURL, ""), 0, 2, false) == Ok(ScrapeResults([ShopURL], [[]]))
  {
    var e := ShopEnv(env);
    assert ShopURL != PrivateURL by { assert |ShopURL| != |PrivateURL|; }
    assert PageBlocks(cfg.pieces, e.divide(Doc([])), e) == Ok([]);
    var next := Request(ShopURL, "").(url := PrivateURL);
    assert Pages(cfg, e, robots, next, 1, 1, true) == Err(ForbiddenByRobots(PrivateURL));
    assert Pages(cfg, e, robots, next, 1, 1, false) == Ok(ScrapeResults([], []));
    assert e.setCookie(Response([]), Request(ShopURL, "")).0.(url := PrivateURL) == next;
    assert [ShopURL] + [] == [ShopURL];
    var noBlocks: seq<seq<Block>> := [[]];
    assert noBlocks + [] == noBlocks;
  }

  // ---------------------------------------------------------------------
  // ParseData

  /** The output of ParseData for scrape results, by format: json gives the
      page-grouped results or the flat block list, csv the records under
      the configured header with the encoder's error discarded, xml the
      framed items or the first item error, and any other format an empty
      body. */
  function Encode(cfg: Config, res: ScrapeResults, env: Env): Result<Bytes, ParseError>
  {
    var all := Concat(res.results);
    if cfg.opts.format == "json" then
      Ok(env.json(if cfg.opts.paginateResults then PagedResults(res) else FlatBlocks(all)))
    else if cfg.opts.format == "csv" then
      Ok(env.renderCSV(Encoders.CSVRecords(cfg.csvHeader, all), ','))
    else if cfg.opts.format == "xml" then
      var (items, e) := Encoders.Items(all, env.xmlItem);
      if e.Some? then Err(XMLFailed(e.value))
      else Ok(Encoders.DeclarationBytes + Encoders.ItemsOpenBytes + items + Encoders.ItemsCloseBytes)
    else Ok([])
  }

  /** ParseData: the configuration is built first and its error returned;
      then the type assertion `p.Request.(splash.Request)`, which panics
      (RequestNotSplash) for any other request; then the scraper, whose
      error is returned; then the scrape, whose error is returned before
      anything is encoded. */
  function ParseDataSpec(p: Plan.Payload, env: Env, fuel: nat, robotsFirst: bool): Result<Bytes, ParseError>
  {
    match env.toConfig(p)
    case Err(e) => Err(ConfigFailed(e))
    case Ok(cfg) =>
      if p.request.kind != Plan.SplashFetcher then Err(RequestNotSplash)
      else if env.newScraper(cfg).Some? then Err(ScraperFailed(env.newScraper(cfg).value))
      else
        match ScrapeSpec(cfg, Request(env.getURL(p.request), ""), env, fuel, robotsFirst)
        case Err(e) => Err(e)
        case Ok(res) => Encode(cfg, res, env)
  }

  method ParseData(p: Plan.Payload, env: Env, fuel: nat, robotsFirst: bool) returns (r: Result<Bytes, ParseError>)
    ensures r == ParseDataSpec(p, env, fuel, robotsFirst)
  {
    var config := env.toConfig(p);
    if config.Err? {
      return Err(ConfigFailed(config.error));
    }
    var cfg := config.value;
    if p.request.kind != Plan.SplashFetcher {
      return Err(RequestNotSplash);
    }
    var url := env.getURL(p.request);
    var req := Request(url, "");
    var scraperErr := env.newScraper(cfg);
    if scraperErr.Some? {
      return Err(ScraperFailed(scraperErr.value));
    }
    var results := Scrape(cfg, req, env, fuel, robotsFirst);
    if results.Err? {
      return Err(results.error);
    }
    var res := results.value;
    var buf: Bytes := [];
    if cfg.opts.format == "json" {
      if cfg.opts.paginateResults {
        buf := env.json(PagedResults(res));
      } else {
        var all := AllBlocks(Results(res.results));
        buf := env.json(FlatBlocks(all));
      }
    } else if cfg.opts.format == "csv" {
      var w := new Encoders.CSVWriter();
      var all := AllBlocks(Results(res.results));
      assert Encoders.Separator(",") == ',';
      var err := Encoders.EncodeCSV(cfg.csvHeader, all, ",", w);
      assert w.comma == ',';
      assert w.records == Encoders.CSVRecords(cfg.csvHeader, Concat(res.results));
      buf := env.renderCSV(w.records, w.comma);
    } else if cfg.opts.format == "xml" {
      var xbuf := new Encoders.ByteBuffer();
      var all := AllBlocks(Results(res.results));
      var err := Encoders.EncodeXML(all, xbuf, env.xmlItem);
      if err.Some? {
        return Err(XMLFailed(err.value));
      }
      assert [] + Encoders.DeclarationBytes == Encoders.DeclarationBytes;
      buf := xbuf.data;
    }
    r := Ok(buf);
  }

  /** Only xml output can fail once the scrape succeeded, and only when some
      block cannot be written as an item; a format other than json, csv and
      xml gives an empty body. */
  lemma EncodeErrors(cfg: Config, res: ScrapeResults, env: Env)
    ensures Encode(cfg, res, env).Err? <==>
              cfg.opts.format == "xml"
              && exists k :: 0 <= k < |Concat(res.results)| && env.xmlItem(Concat(res.results)[k]).Err?
    ensures cfg.opts.format !in {"json", "csv", "xml"} ==> Encode(cfg, res, env) == Ok([])
  {
    var all := Concat(res.results);
    Encoders.ItemsAllOk(all, env.xmlItem);
    if cfg.opts.format == "xml" {
      assert Encode(cfg, res, env).Err? <==> Encoders.Items(all, env.xmlItem).1.Some?;
    }
  }

  /** The json body holds the page-grouped results exactly when
      PaginateResults is set, and the flat block list otherwise. */
  lemma JSONChoice(cfg: Config, res: ScrapeResults, env: Env)
    requires cfg.opts.format == "json"
    ensures cfg.opts.paginateResults ==> Encode(cfg, res, env) == Ok(env.json(PagedResults(res)))
    ensures !cfg.opts.paginateResults ==> Encode(cfg, res, env) == Ok(env.json(FlatBlocks(Concat(res.results))))
  {
  }

  /** ParseData answers only for a splash request: a payload whose
      configuration builds but whose request is a base fetcher request
      panics in the type assertion, whatever the scrape would do. */
  lemma ParseDataNeedsSplash(p: Plan.Payload, env: Env, fuel: nat, robotsFirst: bool)
    ensures ParseDataSpec(p, env, fuel, robotsFirst).Ok? ==>
              env.toConfig(p).Ok? && p.request.kind == Plan.SplashFetcher && env.newScraper(env.toConfig(p).value).None?
    ensures env.toConfig(p).Ok? && p.request.kind == Plan.BaseFetcher ==>
              ParseDataSpec(p, env, fuel, robotsFirst) == Err(RequestNotSplash)
  {
  }

  /** A configuration, request, scraper or scrape error is returned before any
      encoding: the encoders are not consulted. */
  lemma ErrorsBeforeEncoding(p: Plan.Payload, env: Env, fuel: nat, robotsFirst: bool,
                             json: JSONInput -> Bytes, renderCSV: (seq<seq<string>>, char) -> Bytes,
                             xmlItem: Block -> Result<Bytes, string>)
    requires ParseDataSpec(p, env, fuel, robotsFirst).Err?
    requires !ParseDataSpec(p, env, fuel, robotsFirst).error.XMLFailed?
    ensures ParseDataSpec(p, env.(json := json, renderCSV := renderCSV, xmlItem := xmlItem), fuel, robotsFirst)
            == ParseDataSpec(p, env, fuel, robotsFirst)
  {
    var env' := env.(json := json, renderCSV := renderCSV, xmlItem := xmlItem);
    if env.toConfig(p).Ok? && p.request.kind == Plan.SplashFetcher && env.newScraper(env.toConfig(p).value).None? {
      var cfg := env.toConfig(p).value;
      var req := Request(env.getURL(p.request), "");
      match env.robotsData(req.url)
      case Err(_) =>
      case Ok(robots) =>
        PagesEncoders(cfg, env, env', robots, req, 0, fuel, robotsFirst);
        if ScrapeSpec(cfg, req, env, fuel, robotsFirst).Ok? {
          EncodeErrors(cfg, ScrapeSpec(cfg, req, env, fuel, robotsFirst).value, env);
        }
    }
  }

  lemma {:induction false} PagesEncoders(cfg: Config, env: Env, env': Env, robots: Robots.RobotsData, req: Request,
                                         numPages: nat, fuel: nat, robotsFirst: bool)
    requires env' == env.(json := env'.json, renderCSV := env'.renderCSV, xmlItem := env'.xmlItem)
    ensures Pages(cfg, env', robots, req, numPages, fuel, robotsFirst) == Pages(cfg, env, robots, req, numPages, fuel, robotsFirst)
    decreases fuel
  {
    if fuel > 0 {
      match env.fetch(req)
      case Err(_) =>
      case Ok(resp) =>
        match env.content(resp)
        case Err(_) =>
        case Ok(doc) =>
          PageBlocksEnv(cfg.pieces, env.divide(doc), env, env');
          match env.nextPage(req.url, doc)
          case Err(_) =>
          case Ok(next) =>
            PagesEncoders(cfg, env, env', robots, env.setCookie(resp, req).0.(url := next), numPages + 1, fuel - 1,
                          robotsFirst);
    }
  }
}
