# Dataflow Kit scrape pipeline — a Dafny model

Dataflow Kit fetches web pages and extracts structured data from them. The
user describes the fields to extract as CSS selectors with extractor types in
a payload. The service then walks the pages of a site, following a
paginator and detail links. It encodes what it extracted as JSON, CSV or XML.

This project models the logic of that pipeline, with DOM queries, HTTP,
storage and clocks passed in as function parameters. It covers:

- `scrape/scrape.go`:
  - the extraction-plan compiler (`fields2parts`, `newScraper`, `selectors`, `partNames`);
  - the result containers (`Results.First`, `AllBlocks`);
  - the task bookkeeping of `Task.scrape`, `Task.blockWorker` and `Task.Parse`.
- `scrape/encoders.go`: the output encoders.
- `parse/service.go`: the sequential pagination loop of `ParseService` and its format dispatch.
- `parser/parser.go`: the legacy collection parser, table generation and slice utilities.
- `fetch/fetcher.go`, `fetch/basefetcher.go` and `fetch/service.go`:
  - URL normalisation and form-data parsing;
  - the HTTP status mapping of section 15 of RFC 9110;
  - the fetch service's cookie partition and write-back.
- `server/caching.mw.go`: the cache-aside middleware.
- `server/robotstxt.mw.go`: the robots.txt middleware, which looks for the file at the location section 2.3 of RFC 9309 fixes.
- `storage/storage.go`: the storage-type parser.

One Dafny module corresponds to each source file. `Tasks` (Task.dfy) and
`Plan` (Plan.dfy) both model `scrape/scrape.go`: `Plan` holds the compiler and
`Tasks` the traversal. Imperative code is written as methods and classes.
Each such method is proved against a specification function, and the lemmas
state what the source promises about that function. Shared string helpers
(Go's `strings.TrimSpace`, `TrimRight`, `Split`, ASCII `ToLower`, `strconv.Itoa`)
are in `Base`.

Where "## Findings" records a defect, the operations it touches take a flag
that selects the behaviour: `asWritten` in `Tasks`, `deleteRegexp` in `Plan`
and `robotsFirst` in `ParseLoop`. Set to true, the flag gives what the source
does. Set to false, it gives the evidently intended behaviour, and the lemmas
state how the two differ.

## Model

| member | source | states |
|---|---|---|
| Storage.ParseType | storage/storage.go:51-66 | lower-cases its input and maps "s3", "spaces", "diskv" and "redis" to the four constants, each in both directions; anything else gives nil |
| Storage.NewStore | storage/storage.go:69-98 | a store exists exactly for the four type names; S3 and Spaces both build an S3-backed store; Diskv uses a 1 MiB cache |
| Storage.ParseTypeCaseInsensitive | storage/storage.go:53 | lower-casing the input first changes nothing |
| Storage.ParseTypeName | storage/storage.go:39-66 | every constant's own name parses back to that constant |
| Storage.TypeNamesDistinct | storage/storage.go:39-48 | the four constants carry pairwise distinct names |
| Storage.ParsedTypeHasStore | storage/storage.go:51-98 | NewStore can build a store for every type ParseType recognises |
| Fetchers.GetURL | fetch/fetcher.go:478-480 | the normalised URL never ends in "/" and never starts with whitespace |
| Fetchers.BaseGetURLTrimmed | fetch/basefetcher.go:80-82 | BaseFetcherRequest.GetURL has no whitespace at either end |
| Fetchers.GetURLOrderMatters | fetch/basefetcher.go:80-82 | the two normalisations disagree: for any URL x without whitespace at its ends and not ending in "/", `x + "/ "` gives `x/` for BaseFetcherRequest and `x` for Request |
| Fetchers.Validate | fetch/basefetcher.go:85-91 | BadRequest exactly when the trimmed URL is not a valid request URI, otherwise nil |
| Fetchers.AddValue | fetch/fetcher.go:211 | url.Values.Add appends the value to the key's list and changes no other key |
| Fetchers.ParseFormData | fetch/fetcher.go:205-214 | the accumulation loop computes FormData: the pairs added left to right, with a panic (None) on a pair without "=" |
| Fetchers.FormDataAccumulates | fetch/fetcher.go:205-214 | parsing succeeds exactly when every "&"-pair holds "="; each key then holds the values of its pairs in order, and only keys of some pair are present |
| Fetchers.FormDataExample | fetch/fetcher.go:208-212 | for a key and values free of "&" and "=", `k=v1&k=v2=extra` gives k → [v1, v2]: repeated keys accumulate and the text after a second "=" is dropped |
| Fetchers.FormDataPanicExample | fetch/fetcher.go:210-211 | a single pair without "=" (and without "&") panics |
| Fetchers.BuildRequest | fetch/fetcher.go:149-163 | no form data gives the request's own method with no body; form data gives a POST whose body is the encoded form, with the form Content-Type and a Content-Length equal to the body's length |
| Fetchers.StatusErrorRoundTrip | fetch/fetcher.go:169-190 | each of 400, 401, 403, 404, 407, 500, 502 and 504 maps to the error kind that names it; any other non-200 status is "Unknown Error"; 404 and 403 carry the URL; 4xx codes give client errors |
| Fetchers.Response | fetch/fetcher.go:135-192 | an invalid URL is a BadRequest before any request is made; success means status 200 from the request BuildRequest built; a non-200 answer gives StatusError of that code |
| Fetchers.NewFetcherKind | fetch/fetcher.go:90-100 | Base and Chrome build their fetchers, and any other type panics |
| Fetchers.CookieJar.SetCookies | fetch/service.go:77 | the jar holds its old cookies followed by the new ones |
| Fetchers.CookieJar.AllCookies | fetch/service.go:87 | answers the cookies the jar holds |
| Fetchers.Fetcher.SetCookieJar | fetch/fetcher.go:199-202 | installs the given jar on the client |
| Fetchers.Fetcher.GetCookieJar | fetch/fetcher.go:194-196 | returns the installed jar, which is the one the last setCookieJar installed |
| Fetchers.BaseFetcherResponse.SetCacheInfo | fetch/basefetcher.go:55-67 | a zero computed expiry becomes now + 24 h and any other expiry is kept; the expiry is never zero afterwards; the reasons are stored as given |
| Fetchers.BaseFetcherResponse.GetExpires | fetch/basefetcher.go:70-72 | returns the stored expiry |
| Fetchers.BaseFetcherResponse.GetReasonsNotToCache | fetch/basefetcher.go:75-77 | returns the stored reasons |
| FetchService.ServiceFetcherType | fetch/service.go:30-35 | "chrome" selects Chrome and any other string selects Base; both are types newFetcher accepts |
| FetchService.PartitionCookies | fetch/service.go:68-76 | the in-place removal loop moves exactly the cookies of the host to `temp`, in order, and leaves exactly the others in the list, in order |
| Base.FilterPartition | fetch/service.go:68-76 | splitting the cookies into the host's and the rest loses and duplicates nothing: the lengths and the multisets add up |
| FetchService.FilterPrefixStep | fetch/service.go:69-75 | one more loop step extends the filtered prefix by the next cookie exactly when it matches |
| FetchService.CookieStore.Read | fetch/service.go:51-57 | answers the stored record for a key it holds and an error otherwise |
| FetchService.CookieStore.Write | fetch/service.go:92-97 | replaces the token's record and nothing else |
| FetchService.RestoreCookies | fetch/service.go:48-79 | with a token, the host's stored cookies go into the jar and the others are kept aside; malformed stored JSON or an unparsable URL is an error; a failed read counts as no cookies |
| FetchService.Fetch | fetch/service.go:28-105 | the answer and the cookie records afterwards are FetchOutcome of the records before |
| FetchService.NoTokenNoStore | fetch/service.go:48-103 | without a user token the store is neither read nor written, and the fetch goes out with an empty jar |
| FetchService.FailureNoWrite | fetch/service.go:55-84 | a failed fetch, or a cookie record that cannot be restored, writes nothing back |
| FetchService.SuccessWriteBack | fetch/service.go:64-98 | after a successful fetch under a token, only that token's record changes; it holds the other hosts' stored cookies followed by the jar's cookies; the jar got exactly the host's stored cookies, and the two groups add up to the stored cookies |
| Robots.NewRobotsTxt | server/robotstxt.mw.go:74-86 | an empty URL gives "empty URL"; an unparsable URL is an error; otherwise the result is scheme://host/robots.txt |
| Robots.GetCrawlDelay | server/robotstxt.mw.go:96-102 | 0 for missing robots data, otherwise the crawl delay of the DataflowKitBot group |
| Robots.Fetch | server/robotstxt.mw.go:24-72 | if allowed, the target goes to the wrapped service with the crawl delay set and its answer is returned; if denied, the answer is "<url>: forbidden by robots.txt" and the target is never passed on; a content error aborts with that error; the exact sequence of wrapped calls is stated |
| Robots.PermissiveDefault | server/robotstxt.mw.go:25-55 | when the robots location cannot be built, the robots fetch fails or the data does not parse, the target is allowed with no crawl delay |
| Robots.DenyIffAgentRefused | server/robotstxt.mw.go:53-69 | a refusal happens exactly when parsed robots data rejects the agent for the target's path |
| Caching.RedisConn.GetValue | server/caching.mw.go:87-91 | a miss (error) for a key it does not hold, the stored bytes otherwise |
| Caching.RedisConn.SetValue | server/caching.mw.go:103-107 | replaces one key's value; expiries are unchanged |
| Caching.RedisConn.SetExpire | server/caching.mw.go:108-111 | replaces one key's expiry; values are unchanged |
| Caching.ParseDataKey | server/caching.mw.go:86 | the key is format, "-", then the payload MD5 |
| Caching.ParseData | server/caching.mw.go:78-114 | the answer (output and error, as the two named results) and the cache afterwards are ParseDataOutcome of the cache before and SetExpireIn's error |
| Caching.ParseDataHitIgnoresInner | server/caching.mw.go:87-91 | a hit answers the cached bytes with no error whatever the wrapped service or SetExpireIn would do, and writes nothing |
| Caching.ParseDataErrorNoWrite | server/caching.mw.go:82-113 | an error with no output (NewPayload's or the wrapped service's) writes nothing; an error beside an output is SetExpireIn's, after the value was written and with no expiry set |
| Caching.ParseDataMissAnswer | server/caching.mw.go:93-113 | a successful miss answers the wrapped service's bytes with SetExpireIn's error, stores the bytes, and sets the hour's expiry exactly when SetExpireIn succeeds |
| Caching.ParseDataCachesResult | server/caching.mw.go:97-113 | after a miss that produced an output (even with SetExpireIn's error) the same payload hits and answers the same bytes with no error, and the cache no longer changes |
| Caching.ParseDataFrame | server/caching.mw.go:103-111 | only the payload's own key and its expiry can change |
| Caching.Fetch | server/caching.mw.go:28-76 | the answer and the cache afterwards are FetchOutcome of the cache before |
| Caching.FetchHitIgnoresInner | server/caching.mw.go:34-50 | a hit never calls the wrapped service and changes nothing; a cached 404 answers "Error: 404. NOT FOUND" |
| Caching.FetchMissWrites | server/caching.mw.go:53-71 | on a miss the cache changes exactly when the wrapped service answered a cacheable splash response, which then expires at its CacheExpirationTime |
| Caching.FetchCachesResponse | server/caching.mw.go:34-72 | with a round-tripping JSON codec, a cacheable response fetched on a miss is answered from the cache next time (as the 404 error if its status is 404) |
| Blocks.AllBlocks | scrape/scrape.go:478-488 | the page-then-block concatenation of Output, whose length is the sum of the page lengths |
| Blocks.ConcatLength | scrape/scrape.go:478-488 | the flat list has as many blocks as all pages together |
| Blocks.ConcatAppend | scrape/scrape.go:478-488 | flattening distributes over appending pages |
| Blocks.ConcatIndex | scrape/scrape.go:478-488 | block j of page p sits at position (blocks of the earlier pages) + j of the flat list |
| Blocks.First | scrape/scrape.go:468-474 | the index panic (Err) exactly when there is no page, nil exactly when the first page has no blocks, otherwise the first block of AllBlocks |
| Encoders.NewEncoder | scrape/encoders.go:14-38 | matches the format case-insensitively: csv gives the CSV encoder with "," and the Part names, json the JSON encoder with paginateResults, xml the XML encoder, anything else nil |
| Encoders.EncodeJSON | scrape/encoders.go:59-68 | the page-grouped results when paginateResults is set, otherwise the flat AllBlocks; never an error |
| Encoders.Separator | scrape/encoders.go:127-130 | an empty comma becomes ","; otherwise the separator is the rune of comma's first byte: an ASCII first character itself, any other the Latin-1 rune (0xC0-0xFF) of its UTF-8 lead byte |
| Encoders.SeparatorOfMultiByte | scrape/encoders.go:129 | a comma starting with "é" (bytes C3 A9) gives the separator U+00C3, not "é" |
| Encoders.CSVWriter.Write | scrape/encoders.go:133-151 | a valid delimiter appends the record; an invalid one is an error and writes nothing |
| Encoders.Refill | scrape/encoders.go:139-148 | one refill of the row buffer has one cell per header column, each converted from the block's value for that column |
| Encoders.FillRow | scrape/encoders.go:139-148 | refills the reused row array in place, which amounts to Refill of its old contents |
| Encoders.EncodeCSV | scrape/encoders.go:126-154 | sets the separator; with a valid delimiter writes the header (if non-empty), then one record per row; otherwise the first write fails and nothing is written |
| Encoders.WriteRows | scrape/encoders.go:138-153 | with a valid delimiter, appends exactly the data records (the buffer after each block) in block order; otherwise the first write fails exactly when there is a row, and nothing is written |
| Encoders.CSVShape | scrape/encoders.go:132-152 | the records are the header iff it is non-empty, then one record per row, each with exactly len(header) fields |
| Encoders.CSVCell | scrape/encoders.go:140-147 | a string cell is itself, a list is joined with ";", nil is "", and any other type keeps the previous row's cell (empty in the first row) |
| Encoders.EncodeCSVResults | scrape/encoders.go:70-95 | renders the CSV records of the flat block list under the Part names; the encodeCSV error is returned |
| Encoders.EncodeXML | scrape/encoders.go:157-172 | writes the XML declaration, `<items>`, one item per block in order and `</items>`; an item error returns at once, without the closing tag |
| Encoders.ItemsStop | scrape/encoders.go:162-168 | once an item fails, later blocks contribute nothing |
| Encoders.ItemsAllOk | scrape/encoders.go:162-168 | the items are complete exactly when every block can be written; otherwise the error is that of the first block that cannot |
| Encoders.EncodeXMLResults | scrape/encoders.go:97-120 | the framed items of the flat block list, or the first item error |
| Plan.CompileType | scrape/scrape.go:186-250 | one case of the type switch computes the Part, Params and deleted set TypeStep specifies; with `deleteRegexp` (the source's behaviour) a compiled regex type removes "regexp" from the Params |
| Plan.Fields2Parts | scrape/scrape.go:174-275 | the compile-and-validate loop computes Fields2PartsSpec: each field starts from its Params without the "regexp" entries deleted by earlier compiles, and the deletions of a field with non-nil Params persist |
| Plan.CompileFieldTypes | scrape/scrape.go:184-253 | the type loop of one field yields the Parts, the updated Params and the deleted set CompileTypes specifies, and stops at the first type error |
| Plan.ValidateParts | scrape/scrape.go:256-273 | no Parts is ErrNoParts; otherwise the answer is the first Part with no name, a repeated name or no selector, as Validate specifies |
| Plan.Selectors | scrape/scrape.go:427-438 | the loop computes the non-empty selectors in field order, with ErrNoSelectors when there are none |
| Plan.NewScraper | scrape/scrape.go:136-171 | computes NewScraperSpec: fields2parts errors first, then the selectors error, then the Scraper with the deleted set after compiling; the dummy paginator exactly when Paginator is nil |
| Plan.PartNames | scrape/scrape.go:456-462 | the Part names, in order |
| Plan.FieldSelectors | scrape/scrape.go:430-434 | one selector per field, in field order |
| Plan.CompileShape | scrape/scrape.go:136-254 | a compiled Scraper has one Part per recognised extractor type, in field then type order; each Part is named `<field>_<type>` and carries the field's selector; it has a sub-scraper exactly for href/src of a field with Details and a Regex extractor exactly for regex; selectors are the non-empty field selectors; the dummy paginator iff Paginator is nil |
| Plan.ValidateMeaning | scrape/scrape.go:256-273 | validation passes exactly when there are Parts with non-empty, pairwise distinct names and non-empty selectors; zero Parts is ErrNoParts; every other error names a Part with that fault |
| Plan.NeverNoName | scrape/scrape.go:260-262 | the missing-name check never fires, because every Part name contains "_" |
| Plan.NoSelectorsUnreachable | scrape/scrape.go:145-148 | newScraper's no-selectors error never fires after fields2parts succeeded |
| Plan.NewScraperAgrees | scrape/scrape.go:136-171 | compiling two payloads that differ only in request and name gives the same outcome |
| Plan.SecondCompileAgrees | scrape/scrape.go:349-357 | corrected: the next page's compile succeeds exactly when the first did, and equals a fresh compile with the next request |
| Plan.SecondCompilePanicsAsWritten | scrape/scrape.go:224-357 | as written: the first compile of a payload with a regex field succeeds, but the next page's compile panics in the `regExp.(string)` assertion |
| Tasks.Task.constructor | scrape/scrape.go:41-53 | a new task holds the payload and id, no errors, an empty robots cache, no deleted Params entries, and is not parsed |
| Tasks.BlockStore.Write | scrape/scrape.go:619-644 | replaces one key's record and appends the write to the log |
| Tasks.WaitGroup.Add | scrape/scrape.go:77 | the counter goes up by one |
| Tasks.WaitGroup.Done | scrape/scrape.go:414 | the counter goes down by one |
| Tasks.Range | scrape/scrape.go:392-404 | the block indices 0..n-1 |
| Tasks.BlockKeyInjective | scrape/scrape.go:400 | distinct (page, block) pairs get distinct `UID-page-block` keys |
| Tasks.PagesVisited | scrape/scrape.go:335-336 | corrected budget: a chain visits min(chain length, MaxPages) pages when MaxPages > 0, and only the first page otherwise |
| Tasks.PagesVisitedAsWritten | scrape/scrape.go:335-336 | as written: with MaxPages 2, a chain of three linked pages visits all three |
| Tasks.RobotsFetchedOnce | scrape/scrape.go:293-309 | a cached host's robots data is never fetched again and the cache stays as it is |
| Tasks.GateCaches | scrape/scrape.go:286-314 | the robots cache only grows; the page's host is cached unless the page aborts; a disallowed URL is recorded as ForbiddenByRobots without aborting; the only abort is a robots URL that cannot be assembled after a failed robots fetch |
| Tasks.CheckRobots | scrape/scrape.go:286-314 | records exactly the errors RobotsGate names and updates the cache as it says |
| Tasks.PagerStepStarts | scrape/scrape.go:328-367 | a next page is started only when a next URL exists within the budget (`page < MaxPages` as written, `page + 1 < MaxPages` corrected); its Scraper is bound to the next page's request, and the corrected compile deletes nothing |
| Tasks.BlockMapKeys | scrape/scrape.go:512-618 | a block map's keys are the names of the Parts that extracted something, plus `<part>_details` for those with Details and detail URLs |
| Tasks.BlockMapValues | scrape/scrape.go:512-618 | with distinct names, each Part that extracted something finds its own value, and its details key holds the details UID |
| Tasks.CompiledNoDetailsClash | scrape/scrape.go:539-618 | no compiled Part name is another Part's `_details` key |
| Tasks.BlockWorker | scrape/scrape.go:500-647 | the block map is BlockMap (the Parts in declaration order, "." the block, nils omitted); a non-empty map is written under the block key and sets Parsed; an empty one changes neither the store nor the task |
| Tasks.PartStep | scrape/scrape.go:512-618 | one Part adds its value to the block map as AddPart says; while the map stays empty nothing else changes |
| Tasks.ScrapeDetails | scrape/scrape.go:578-626 | `<part>_details` is set to the detail UID exactly when there is a detail URL; the payload and id stay, errors only grow, robots entries are kept, and Parsed stays set |
| Tasks.DetailScrape | scrape/scrape.go:578-626 | a detail scrape ends with its own page keys, marshalled, written under the detail UID; every entry is a block-index range, page 0 is present exactly when the detail page got through, and the keys are empty otherwise; the task changes only as a scrape may |
| Tasks.ScrapePasses | scrape/scrape.go:77-97 | one or two passes. A second pass comes only after a first that did not hang, on a task not parsed before, with a non-splash fetcher and a buildable splash request, and it uses fetcher type splash; a first pass that leaves the task unparsed without hanging is always followed by one, unless the fetcher was splash or the request cannot be built. As written, Hung exactly when the last pass had a page returning before wg.Done; otherwise success exactly when something was parsed, and each failure names its error |
| Tasks.Pass | scrape/scrape.go:77-79 | one pass hangs in wg.Wait exactly when, as written, some page of its chain returned before wg.Done; otherwise the counter is back to zero |
| Tasks.Scrape | scrape/scrape.go:278-424 | a robots abort records the gate's errors and changes nothing else; a fetch or pager error writes no keys and no blocks; otherwise the page returns EmptyResults, keys[page] is the block indices and each non-empty block is written under `UID-page-i`; pages below this one keep their keys; as written each early return leaves the WaitGroup one higher, corrected every page calls Done |
| Tasks.ScrapeGated | scrape/scrape.go:316-418 | past the robots check: a fetch error returns FetchFailed, otherwise the fetched page's outcome |
| Tasks.ScrapeFetched | scrape/scrape.go:328-418 | a fetched page returns PagerStep's error, or EmptyResults after recording its block indices and writing its blocks, and its outcome heads the chain of the pages it started |
| Tasks.ScrapeBlocks | scrape/scrape.go:392-412 | keys[page] ends as exactly [0..n-1] for n blocks and no other page's entry changes; every non-empty block map i is written under key `UID-page-i` |
| Tasks.NextPage | scrape/scrape.go:328-371 | aborts exactly with PagerStep's error; otherwise a next page is started exactly when PagerStep names one (within the step bound); when none is, keys, store and Parsed are unchanged; started pages that returned EmptyResults have keys |
| Tasks.StartNext | scrape/scrape.go:365-366 | `wg.Add(1)` and the next page's scrape, whose pages keep the keys below it |
| Tasks.Parse | scrape/scrape.go:56-133 | a compile error returns at once and changes nothing; at most two passes, the second only with the splash fetcher; corrected it never hangs; nothing parsed means an error; when something was parsed and nothing hung, the page keys (block index ranges, page 0 among them) are stored under UID crc(payloadMD5) and the answer is the chosen encoder's output or its error |
| Tasks.ParseEncoder | scrape/scrape.go:108-123 | the encoder for the payload's format and the Part names; JSON with a nil PaginateResults is the nil-pointer panic |
| ParseLoop.ExtractPage | parse/service.go:185-214 | the nested block/piece loops compute PageBlocks |
| ParseLoop.BlockResultMeaning | parse/service.go:189-208 | a block fails exactly when some piece fails, with the first failing piece's error; otherwise its keys are the names of the pieces with non-nil results |
| ParseLoop.BlockResultValue | parse/service.go:189-208 | a piece with a unique name and a non-nil result finds its value under its name |
| ParseLoop.BlockResultsMeaning | parse/service.go:185-214 | all blocks succeed exactly when each one does, and then there is one block map per block |
| ParseLoop.PageBlocksMeaning | parse/service.go:185-214 | a page's blocks are the successful block maps with the empty ones dropped, or the first error |
| ParseLoop.PageBlocksNonEmpty | parse/service.go:210-212 | no empty block is appended |
| ParseLoop.Scrape | parse/service.go:143-256 | the loop computes ScrapeSpec: robots data once, then pages until an empty URL or the MaxPages bound; with `robotsFirst` (the source's order) the robots check comes before the stop test |
| ParseLoop.PagesCount | parse/service.go:163-219 | one URL and one result per fetched page; at most MaxPages pages when MaxPages > 0 |
| ParseLoop.PagesContents | parse/service.go:159-217 | every fetched URL is non-empty and allowed by robots.txt; every recorded block is non-empty |
| ParseLoop.ScrapeBound | parse/service.go:143-256 | a whole scrape records as many URLs as results, at most MaxPages when MaxPages > 0, all allowed |
| ParseLoop.FuelEnough | parse/service.go:163-165 | with MaxPages > 0, enough steps make the step bound irrelevant |
| ParseLoop.CookieErrorIgnored | parse/service.go:229-240 | a cookie-propagation error changes nothing in the outcome |
| ParseLoop.PageBlocksEnv | parse/service.go:185-214 | page extraction depends only on the DOM query and the extractors |
| ParseLoop.AsWrittenImpliesCorrected | parse/service.go:159-165 | every successful run of the as-written loop is also a run of the corrected one |
| ParseLoop.CorrectedDiffersByRobots | parse/service.go:159-165 | the two loop orders differ only where the as-written one fails with ForbiddenByRobots |
| ParseLoop.RobotsBeforeStopAsWritten | parse/service.go:159-165 | as written: with MaxPages 1, a first page linking to a disallowed URL fails with ForbiddenByRobots, while the corrected order returns the first page |
| ParseLoop.ParseData | parse/service.go:33-102 | builds the config, asserts a splash request, builds the scraper, scrapes (in the loop order `robotsFirst` selects) and encodes, computing ParseDataSpec |
| ParseLoop.ParseDataNeedsSplash | parse/service.go:34-45 | an answer needs a config, a splash request and a scraper; a base fetcher request whose config builds is the assertion panic, whatever the scrape would do |
| ParseLoop.EncodeErrors | parse/service.go:53-101 | only xml can fail, exactly when some block cannot be written; an unknown format gives an empty body and no error |
| ParseLoop.JSONChoice | parse/service.go:54-59 | json gives the page-grouped results with PaginateResults and AllBlocks otherwise |
| ParseLoop.ErrorsBeforeEncoding | parse/service.go:34-51 | a config, request, scraper or scrape error is returned before any encoder runs |
| ParseLoop.PagesEncoders | parse/service.go:143-256 | the scrape loop never consults the encoders |
| Parser.AttrOrDataValue | parser/parser.go:306-318 | a class gives "." and the class with no spaces; otherwise an id gives "#" + id; otherwise the tag name; an empty selection has no value |
| Parser.FilledMeaning | parser/parser.go:271-304 | `a` with href gives {href, trimmed text, title if present}; `img` with src gives {src, alt if present}; other elements give their trimmed text; `a`/`img` without the attribute or a non-element give nothing |
| Parser.OutItem.constructor | parser/parser.go:46-49 | a new outItem holds the name and URL, with no fields, no items and count 0 |
| Parser.OutItem.GenAttrFieldName | parser/parser.go:254-264 | appends `<n>_text`, `<n>_href` if href exists, else `<n>_src`, `<n>_alt` if src exists, else `<n>` |
| Parser.Item.FillOutItem | parser/parser.go:271-304 | the item map gains the field's Filled value exactly when there is one |
| Parser.LinkColumnsMatchFill | parser/parser.go:254-288 | a link's generated columns are `<n>_text` and `<n>_href`, and its filled value carries text and href |
| Parser.ImageColumnsMatchFill | parser/parser.go:254-299 | an image's generated columns are `<n>_src` and `<n>_alt`, and its filled value carries src, and alt exactly when present |
| Parser.ContainerSelector | parser/parser.go:90-92 | the container selector is `attrOrDataValue(parent)>attrOrDataValue(intersection)` |
| Parser.ScanFields | parser/parser.go:69-79 | the field loop records the field columns and the ancestor intersection |
| Parser.FillItems | parser/parser.go:108-122 | the item loop keeps the non-empty items, in order |
| Parser.FillItem | parser/parser.go:109-118 | one item maps each field to its filled value |
| Parser.ParseItem | parser/parser.go:46-126 | the outItem is ParseItemSpec's; on success Count == len(Items) and the creation time is now |
| Parser.ParseItemOutcome | parser/parser.go:50-106 | an empty URL is errEmptyURL; no fields or an empty intersection is errNoSelectors; on success one match gives its children as blocks and several give the matches |
| Parser.ItemsOfMeaning | parser/parser.go:108-122 | the items are the non-empty item maps of the blocks, in order |
| Parser.ItemKeys | parser/parser.go:111-117 | an item's keys are names of fields whose selector matched within the block |
| Parser.Parse | parser/parser.go:22-43 | the collection loop computes ParseOut: a GetHTML error or a parseItem panic ends it |
| Parser.ParseOutStops | parser/parser.go:30-38 | once the loop has stopped, later collections change nothing |
| Parser.ParseOutMeaning | parser/parser.go:22-43 | no stop exactly when every page was fetched and parseItem did not panic on it; then one outItem per collection in order, whatever non-panic error parseItem reported; otherwise the stop is the first failing collection's (its GetHTML error, or the panic), and every collection before it is present |
| Parser.StringInSlice | parser/parser.go:325-332 | membership |
| Parser.MatchColumn | parser/parser.go:142-162 | one column's cell is a value of a matching key (scalar k for column k, sub-key k1 of map k for column `k_k1`), or stays "" when nothing matches |
| Parser.GenerateRow | parser/parser.go:138-165 | one cell per field, each a matching value of the item or "" |
| Parser.GenerateTable | parser/parser.go:129-168 | the first row is Fields, then one row per item, each of length len(Fields) with matching cells |
| Parser.SingleMatchCell | parser/parser.go:142-162 | a column matched by exactly one value holds that value |
| Parser.LinkHrefMatches | parser/parser.go:143-150 | a link item's href fills column `<field>_href` |
| Parser.InsertStringToSlice | parser/parser.go:337-346 | for index ≤ len < cap: length len+1, the prefix unchanged, the value at index, the old tail shifted right by one, the rest of the array untouched |
| Parser.AddStringSliceToSlice | parser/parser.go:348-354 | the local slice starts with the caller's and gains each missing input once; the caller's slice is unchanged |
| Parser.FormatOf | parser/parser.go:212-214 | an empty format defaults to json |
| Parser.OutKey | parser/parser.go:215-216 | the key is `<format>-<md5>` |
| Parser.MarshalKind | parser/parser.go:228-235 | xml and csv pick their marshallers, and everything else picks json |
| Parser.MarshalData | parser/parser.go:196-251 | the answer and the cache afterwards are MarshalOutcome of the cache before |
| Parser.MarshalHitUnparsed | parser/parser.go:217-220 | a cache hit is returned unparsed, whatever the fetcher and marshallers would do |
| Parser.MarshalCachesOutput | parser/parser.go:217-249 | after a successful run the same payload answers the same bytes and changes nothing |
| Parser.MarshalWritesOnlyKey | parser/parser.go:196-251 | an error writes nothing; only the payload's own key is written, with the configured expiry if the SET reply was "OK" |

## Left out

- DOM queries (goquery `Find`, `Parents`, `Intersection`, `Children`), `html.Parse` and `url.Parse`/`ParseRequestURI` are function parameters. So are `regexp` compilation, JSON and XML marshalling, mxj item writing, the CSV byte rendering, CRC32/MD5, robots.txt parsing and `cachecontrol`. The model states what the code does with their answers, not what they compute.
- HTTP requests, Redis, S3 and disk storage, and the splash and fetch services are function parameters or small classes holding the stored state. Transport and connection errors appear only where the code branches on them.
- The goroutine and channel fan-out of `Task.scrape` and `Task.blockWorker` is modelled as a sequential traversal: pages depth-first, blocks in order. The chain's WaitGroup is kept as a counter, and a `wg.Wait` that would block for ever is the `Hung` outcome. Interleavings and the unsynchronised writes of concurrent pages to the shared page-keys map are not modelled.
- Fetch-delay sleeps with random jitter, and `time.Now`, are left out; the current time is a parameter where a result depends on it.
- The viper configuration lookups become parameters (storage type, redis address and expiry). A storage type `storage.NewStore` does not recognise gives a nil store (storage/storage.go:96-97), and the `Read`/`Write` calls of fetch/service.go and scrape/scrape.go on it panic; the model always passes a store to those callers.
- ChromeFetcher and its CDP navigation are not part of this model. `Fetchers.NewFetcherKind` only names the kind it would build.
- `initRequest`, `scrape.New`, `PayloadToScrapeConfig`, `fetchContent` and `Paginator.NextPage` are function parameters of the modules that call them. These files are not part of this model.
- ParseLoop.Scrape: `responseFromFetchService` of parse/service.go:105-141 is the `fetch` parameter of `ParseLoop.Env`, and any error it gives is the page's `FetchFailed`. Two of its behaviours differ from that. A failed `client.Do` panics in the source (parse/service.go:124-125), where the model gives a plain `FetchFailed`. A body that does not unmarshal is only logged, and the source goes on with a nil `*splash.Response` and no error (parse/service.go:131-134). The `fetch` parameter always answers a response, so the model does not have that nil response or the panic of its `GetContent` call.
- `ToLower` is ASCII-only; Go's Unicode case folding is not modelled.
- Go panics are modelled as error values (`Panic`, `RegexNotString`, `RegexInvalid`, `ItemPanicked`, `NilPaginateResults`, `RequestNotSplash`, `Err` of `Blocks.First`, None). This covers `parseFormData` without "=", `regexp.MustCompile`, the type assertion on the regexp parameter, `attrOrDataValue` of an empty selection, a panic inside `parseItem`, `Results.First` without pages, the nil `PaginateResults` pointer of `Task.Parse`, the `p.Request.(splash.Request)` assertion of `ParseService.ParseData` and `newFetcher` of an unknown type.
- Tasks.NextPage: a panicking compile of the next page happens in its own goroutine in the source, where it ends the whole process. The model returns it as that page's `CompileFailed` error instead.
- Plan.CompileType: after the type switch, every field passes its Params to `fillStruct`. The Params map is built fresh at scrape/scrape.go:178, so it is an empty map when the payload gives none. `fillStruct` sets the extractor's fields named by the remaining keys and only logs its errors. `fillStruct` is not part of this model, so a Part's extractor is the one the type switch builds, and Params other than "regexp" and "value" do not change it.
- Plan.NewScraper: the deleted set is returned only on success. The deletions a compile made before failing are not carried over, which matters only to a later compile of the same payload after an error.
- Fetchers.CookieJar.SetCookies: the jar is modelled as a list that grows by the new cookies. The persistent jar of the source replaces a cookie with the same name, domain and path and drops expired ones; that library is not part of this model.
- ParseLoop.Scrape: the loop is bounded by a step count `fuel`. With MaxPages > 0 enough fuel makes it irrelevant (`ParseLoop.FuelEnough`); with MaxPages ≤ 0 the model stops after `fuel` pages where the source may follow the paginator forever.
- Tasks.BlockWorker, Tasks.Scrape, Tasks.NextPage: detail and next-page scrapes are bounded by `fuel`; beyond it a detail or next page is not scraped.
- Tasks.Parse: `Task.scrape` never fills its output slice, so it always returns ErrEmptyResults. `e.Encode(results)` is therefore a function parameter over the encoder. `EncodeFromStorage` is not defined anywhere in the source and is left out.
- Tasks.Parse: the page keys are stored through `marshalKeys`. The storage write error is ignored, as in the source.
- ParseLoop.ParseData: package parse's own `encodeCSV` and `encodeXML` are not part of this model. The model assumes they behave like the functions of the same names in scrape/encoders.go:126-172, and renders the csv and xml bodies with `Encoders`.
- Parser.MarshalData: the Redis SET reply and the "OK" test are a function parameter. Expiry is recorded as `ExpireIn` seconds.
- Parser.Parse: the unused `format` variable of `Payloads.Parse` has no counterpart.
- Parser.AttrOrDataValue: `strings.Replace` of spaces by "." is stated as "no space remains and the value starts with '.'", not as the full replacement.
- Caching.RedisConn.GetValue: key expiry is enforced by Redis and is not modelled. The expiry is recorded but never consulted, so `Caching.ParseDataCachesResult` and `Caching.FetchCachesResponse` describe the cache until Redis evicts the key.
- Caching.Fetch: a failed unmarshal of a cached value leaves a nil response whose field access panics. It is modelled as the `Panicked` answer.
- FetchService.Fetch: store write errors only warn in the source. They are not modelled. The model's cookie encoder is total, so the `json.Marshal` error before the cookie write-back (fetch/service.go:88-91) is not modelled either.
- `cachemw` reassigning the package-level `redisCon` is modelled as the `RedisConn` passed in.
- `scrape/structure.go` disagrees with the use of Payload in `scrape/scrape.go`; the model follows `scrape/scrape.go`.

## Findings

| source | as written | input that shows it | evidently intended | confidence | as-written member | corrected member |
|---|---|---|---|---|---|---|
| scrape/scrape.go:229 | `fields2parts` deletes "regexp" from the field's Params map once the pattern compiled. The map is shared with the payload, so recompiling the same payload for the next page (scrape/scrape.go:354) finds no pattern and panics at `regExp.(string)` | a payload with one field of type "regex" whose Params hold "[0-9]+", and a paginator | the payload is left unchanged, so every page compiles like the first | not executed | Plan.SecondCompilePanicsAsWritten | Plan.SecondCompileAgrees |
| parse/service.go:159-165 | the current URL is robots-checked before the stop test. After the last allowed page, a disallowed next URL that will never be fetched aborts the whole scrape with ForbiddenByRobots | MaxPages 1, and a first page whose paginator names a URL that robots.txt disallows | stop first, then check robots only for a page that will be fetched | not executed | ParseLoop.RobotsBeforeStopAsWritten | ParseLoop.AsWrittenImpliesCorrected |
| scrape/scrape.go:298-356 | every `return` of `Task.scrape` before line 414 skips `tw.wg.Done()`, so the `wg.Wait()` of `Task.Parse` (scrape/scrape.go:78, 94) never returns | a payload whose first page cannot be fetched: the fetch error returns at line 319 with the counter still 1 | `defer tw.wg.Done()`, so every return counts the page as done | not executed | Tasks.ScrapePasses | Tasks.Parse |
| scrape/scrape.go:335-336 | the next page is started when `currentPageNum < MaxPages`, with pages numbered from 0. That allows MaxPages + 1 pages | MaxPages 2 and a site of three linked pages: three pages are scraped | at most MaxPages pages (`currentPageNum + 1 < MaxPages`) | not executed | Tasks.PagesVisitedAsWritten | Tasks.PagesVisited |
