/** The extraction-plan compiler of scrape/scrape.go: a payload's fields
    become named Parts (one per recognised extractor type), the Parts are
    validated, fields with Details get a sub-scraper compiled from a copy of
    the payload, and newScraper assembles the Scraper.

    Go maps are shared by reference: fields2parts deletes the "regexp"
    parameter from the field's own Params map once the pattern compiled.
    The map objects are identified by the position of their field in the
    payload tree (its path: field index, then detail-field index, ...), and
    the specification carries the set of paths whose map has lost its
    "regexp" entry. `deleteRegexp` selects the source's behaviour (true) or
    the corrected one that leaves the payload alone (false); see
    README "## Findings". The compiling methods take the same two
    parameters and compute what the specification does. `compiles` stands for regexp.MustCompile succeeding. */
module Plan {
  import opened Base
  import opened Blocks

  // ---------------------------------------------------------------------
  // Payload

  /** The two fetchers a scrape request can name. */
  datatype FetcherType = BaseFetcher | SplashFetcher

  datatype ScrapeRequest = ScrapeRequest(kind: FetcherType, url: string)

  datatype PaginatorSpec = PaginatorSpec(selector: string, attribute: string, maxPages: int, infiniteScroll: bool)

  /** Extractor parameters (`map[string]interface{}`). */
  type Params = map<string, Value>

  datatype Extractor = Extractor(types: seq<string>, params: Option<Params>, filters: seq<string>)

  datatype Field = Field(name: string, selector: string, extractor: Extractor, details: Option<Details>)

  datatype Details = Details(fields: seq<Field>, paginator: Option<PaginatorSpec>)

  /** A payload; `fetcherType` is the fetcher initRequest builds requests for. */
  datatype Payload = Payload(name: string, request: ScrapeRequest, fetcherType: string, fields: seq<Field>,
                             paginator: Option<PaginatorSpec>, format: string,
                             paginateResults: Option<bool>, payloadMD5: string)

  // ---------------------------------------------------------------------
  // Compiled plan

  datatype ExtractorKind =
    | Text(filters: seq<string>)
    | Attr(attr: string, attrFilters: seq<string>)
    | Regex(pattern: string)
    | Const(val: Value)
    | Count
    | Html
    | OuterHtml

  datatype Pager = DummyPaginator | BySelector(selector: string, attribute: string)

  datatype Part = Part(name: string, selector: string, extractor: ExtractorKind, details: Option<Scraper>)

  /** A Scraper; DividePage is DividePageByIntersection(selectors). */
  datatype Scraper = Scraper(request: ScrapeRequest, selectors: seq<string>, parts: seq<Part>, paginator: Pager)

  /** Errors of compiling, and the two panics of MustCompile(regExp.(string)). */
  datatype PlanError =
    | NoParts
    | NoName(index: nat)
    | DuplicateName(name: string)
    | NoSelector(index: nat)
    | NoSelectors
    | RegexNotString
    | RegexInvalid(pattern: string)

  predicate IsPanic(e: PlanError)
  {
    e.RegexNotString? || e.RegexInvalid?
  }

  // ---------------------------------------------------------------------
  // Sizes, for termination through Details

  function FieldsSize(fs: seq<Field>): nat
    decreases fs
  {
    if fs == [] then 0 else FieldSize(fs[0]) + FieldsSize(fs[1..])
  }

  function FieldSize(f: Field): nat
    decreases f
  {
    1 + match f.details case None => 0 case Some(d) => FieldsSize(d.fields)
  }

  lemma {:induction false} FieldSizeBound(fs: seq<Field>, i: nat)
    requires i < |fs|
    ensures FieldSize(fs[i]) <= FieldsSize(fs)
  {
    if i > 0 {
      FieldSizeBound(fs[1..], i - 1);
    }
  }

  // ---------------------------------------------------------------------
  // Specification of fields2parts and newScraper

  /** The field's Params, as the compiler sees them: an empty map for nil,
      without "regexp" if an earlier compile deleted it. */
  function StartParams(f: Field, path: seq<nat>, deleted: set<seq<nat>>): Params
  {
    var m := match f.extractor.params case None => map[] case Some(m) => m;
    if path in deleted then m - {"regexp"} else m
  }

  /** The payload a Details sub-scraper is compiled from. */
  function DetailsPayload(p: Payload, f: Field, d: Details): Payload
  {
    p.(name := f.name + "Details", fields := d.fields, paginator := d.paginator)
  }

  /** The extractor types the compiler recognises (after lower-casing). */
  predicate KnownType(lt: string)
  {
    lt in {"text", "href", "src", "alt", "width", "height", "regex", "const", "count", "html", "outerhtml"}
  }

  /** One extractor type of one field: at most one Part, the Params after
      it, and the deleted set after it. */
  datatype Step = Step(part: Option<Part>, params: Params, deleted: set<seq<nat>>)

  function Simple(f: Field, t: string, k: ExtractorKind, params: Params, deleted: set<seq<nat>>): Step
  {
    Step(Some(Part(f.name + "_" + t, f.selector, k, None)), params, deleted)
  }

  function TypeStep(p: Payload, f: Field, path: seq<nat>, t: string, params: Params,
                    deleted: set<seq<nat>>, deleteRegexp: bool, compiles: string -> bool): Result<Step, PlanError>
    decreases FieldSize(f), 0, 0
  {
    var lt := ToLower(t);
    if lt == "text" then Ok(Simple(f, t, Text(f.extractor.filters), params, deleted))
    else if lt == "href" || lt == "src" then
      match f.details
      case None => Ok(Simple(f, t, Attr(t, []), params, deleted))
      case Some(d) =>
        match NewScraperSpec(DetailsPayload(p, f, d), path, deleted, deleteRegexp, compiles)
        case Err(e) => Err(e)
        case Ok(res) => Ok(Step(Some(Part(f.name + "_" + t, f.selector, Attr(t, []), Some(res.0))), params, res.1))
    else if lt == "alt" then Ok(Simple(f, t, Attr(t, f.extractor.filters), params, deleted))
    else if lt == "width" || lt == "height" then Ok(Simple(f, t, Attr(t, []), params, deleted))
    else if lt == "regex" then
      if "regexp" !in params || !params["regexp"].VStr? then Err(RegexNotString)
      else if !compiles(params["regexp"].s) then Err(RegexInvalid(params["regexp"].s))
      else
        Ok(Simple(f, t, Regex(params["regexp"].s), if deleteRegexp then params - {"regexp"} else params, deleted))
    else if lt == "const" then Ok(Simple(f, t, Const(Lookup(params, "value")), params, deleted))
    else if lt == "count" then Ok(Simple(f, t, Count, params, deleted))
    else if lt == "html" then Ok(Simple(f, t, Html, params, deleted))
    else if lt == "outerhtml" then Ok(Simple(f, t, OuterHtml, params, deleted))
    else Ok(Step(None, params, deleted))
  }

  function OptSeq<T>(o: Option<T>): seq<T>
  {
    match o case None => [] case Some(x) => [x]
  }

  /** The Parts of the first k types of one field. */
  function CompileTypes(p: Payload, f: Field, path: seq<nat>, k: nat, params: Params,
                        deleted: set<seq<nat>>, deleteRegexp: bool, compiles: string -> bool)
    : Result<(seq<Part>, Params, set<seq<nat>>), PlanError>
    requires k <= |f.extractor.types|
    decreases FieldSize(f), 1, k
  {
    if k == 0 then Ok(([], params, deleted))
    else
      match CompileTypes(p, f, path, k - 1, params, deleted, deleteRegexp, compiles)
      case Err(e) => Err(e)
      case Ok(st) =>
        match TypeStep(p, f, path, f.extractor.types[k - 1], st.1, st.2, deleteRegexp, compiles)
        case Err(e) => Err(e)
        case Ok(step) => Ok((st.0 + OptSeq(step.part), step.params, step.deleted))
  }

  /** After a field, a deletion from its own (non-nil) Params map persists. */
  function Persist(f: Field, path: seq<nat>, params: Params, deleted: set<seq<nat>>, deleteRegexp: bool): set<seq<nat>>
  {
    if deleteRegexp && f.extractor.params.Some? && "regexp" !in params then deleted + {path} else deleted
  }

  /** The Parts of the first n fields, before validation. */
  function CompileFields(p: Payload, prefix: seq<nat>, n: nat, deleted: set<seq<nat>>,
                         deleteRegexp: bool, compiles: string -> bool): Result<(seq<Part>, set<seq<nat>>), PlanError>
    requires n <= |p.fields|
    decreases FieldsSize(p.fields), 2, n
  {
    if n == 0 then Ok(([], deleted))
    else
      match CompileFields(p, prefix, n - 1, deleted, deleteRegexp, compiles)
      case Err(e) => Err(e)
      case Ok(acc) =>
        var f := p.fields[n - 1];
        var path := prefix + [n - 1];
        FieldSizeBound(p.fields, n - 1);
        match CompileTypes(p, f, path, |f.extractor.types|, StartParams(f, path, acc.1), acc.1, deleteRegexp, compiles)
        case Err(e) => Err(e)
        case Ok(st) => Ok((acc.0 + st.0, Persist(f, path, st.1, st.2, deleteRegexp)))
  }

  /** The names of the Parts, as a set. */
  function NameSet(parts: seq<Part>): set<string>
  {
    set i | 0 <= i < |parts| :: parts[i].name
  }

  /** The validation loop from part i on, having seen the names in `seen`:
      per part, a missing name, then a repeated name, then a missing
      selector. */
  function FirstInvalid(parts: seq<Part>, i: nat, seen: set<string>): Option<PlanError>
    requires i <= |parts|
    decreases |parts| - i
  {
    if i == |parts| then None
    else if |parts[i].name| == 0 then Some(NoName(i))
    else if parts[i].name in seen then Some(DuplicateName(parts[i].name))
    else if |parts[i].selector| == 0 then Some(NoSelector(i))
    else FirstInvalid(parts, i + 1, seen + {parts[i].name})
  }

  function Validate(parts: seq<Part>): Option<PlanError>
  {
    if |parts| == 0 then Some(NoParts) else FirstInvalid(parts, 0, {})
  }

  /** fields2parts: compile, then validate. */
  function Fields2PartsSpec(p: Payload, prefix: seq<nat>, deleted: set<seq<nat>>,
                            deleteRegexp: bool, compiles: string -> bool): Result<(seq<Part>, set<seq<nat>>), PlanError>
    decreases FieldsSize(p.fields), 3, 0
  {
    match CompileFields(p, prefix, |p.fields|, deleted, deleteRegexp, compiles)
    case Err(e) => Err(e)
    case Ok(acc) =>
      match Validate(acc.0)
      case Some(e) => Err(e)
      case None => Ok(acc)
  }

  predicate NonEmpty(s: string) { s != [] }

  function FieldSelectors(fs: seq<Field>): (r: seq<string>)
    ensures |r| == |fs| && forall i :: 0 <= i < |fs| ==> r[i] == fs[i].selector
  {
    if fs == [] then [] else [fs[0].selector] + FieldSelectors(fs[1..])
  }

  /** selectors: the non-empty selectors in field order; none is an error. */
  function SelectorsSpec(p: Payload): Result<seq<string>, PlanError>
  {
    var sels := Filter(FieldSelectors(p.fields), NonEmpty);
    if |sels| == 0 then Err(NoSelectors) else Ok(sels)
  }

  function PagerOf(ps: Option<PaginatorSpec>): Pager
  {
    match ps
    case None => DummyPaginator
    case Some(s) => BySelector(s.selector, s.attribute)
  }

  /** newScraper: fields2parts errors first, then the selectors error. */
  function NewScraperSpec(p: Payload, prefix: seq<nat>, deleted: set<seq<nat>>,
                          deleteRegexp: bool, compiles: string -> bool): Result<(Scraper, set<seq<nat>>), PlanError>
    decreases FieldsSize(p.fields), 4, 0
  {
    match Fields2PartsSpec(p, prefix, deleted, deleteRegexp, compiles)
    case Err(e) => Err(e)
    case Ok(acc) =>
      match SelectorsSpec(p)
      case Err(e) => Err(e)
      case Ok(sels) => Ok((Scraper(p.request, sels, acc.0, PagerOf(p.paginator)), acc.1))
  }

  /** Drop the bookkeeping of deleted maps. */
  function Value1<T>(r: Result<(T, set<seq<nat>>), PlanError>): Result<T, PlanError>
  {
    match r case Err(e) => Err(e) case Ok(x) => Ok(x.0)
  }

  /** The corrected compiler, which never alters the payload. */
  function Compile(p: Payload, compiles: string -> bool): Result<Scraper, PlanError>
  {
    Value1(NewScraperSpec(p, [], {}, false, compiles))
  }

  // ---------------------------------------------------------------------
  // The compiling methods

  /** One `case` of the type switch in fields2parts: the Part, the Params
      after it (without "regexp" once a pattern compiled and `deleteRegexp`
      holds) and the deleted set after a Details sub-compile. */
  method CompileType(p: Payload, f: Field, path: seq<nat>, t: string, params: Params,
                     deleted: set<seq<nat>>, deleteRegexp: bool, compiles: string -> bool)
    returns (r: Result<Step, PlanError>)
    ensures r == TypeStep(p, f, path, t, params, deleted, deleteRegexp, compiles)
    decreases FieldSize(f), 0, 0
  {
    var name := f.name + "_" + t;
    var lt := ToLower(t);
    if lt == "text" {
      r := Ok(Step(Some(Part(name, f.selector, Text(f.extractor.filters), None)), params, deleted));
    } else if lt == "href" || lt == "src" {
      if f.details.Some? {
        var s := NewScraper(DetailsPayload(p, f, f.details.value), path, deleted, deleteRegexp, compiles);
        if s.Err? {
          return Err(s.error);
        }
        r := Ok(Step(Some(Part(name, f.selector, Attr(t, []), Some(s.value.0))), params, s.value.1));
      } else {
        r := Ok(Step(Some(Part(name, f.selector, Attr(t, []), None)), params, deleted));
      }
    } else if lt == "alt" {
      r := Ok(Step(Some(Part(name, f.selector, Attr(t, f.extractor.filters), None)), params, deleted));
    } else if lt == "width" || lt == "height" {
      r := Ok(Step(Some(Part(name, f.selector, Attr(t, []), None)), params, deleted));
    } else if lt == "regex" {
      if "regexp" !in params || !params["regexp"].VStr? {
        return Err(RegexNotString);
      }
      var pattern := params["regexp"].s;
      if !compiles(pattern) {
        return Err(RegexInvalid(pattern));
      }
      var rest := if deleteRegexp then params - {"regexp"} else params;
      r := Ok(Step(Some(Part(name, f.selector, Regex(pattern), None)), rest, deleted));
    } else if lt == "const" {
      r := Ok(Step(Some(Part(name, f.selector, Const(Lookup(params, "value")), None)), params, deleted));
    } else if lt == "count" {
      r := Ok(Step(Some(Part(name, f.selector, Count, None)), params, deleted));
    } else if lt == "html" {
      r := Ok(Step(Some(Part(name, f.selector, Html, None)), params, deleted));
    } else if lt == "outerhtml" {
      r := Ok(Step(Some(Part(name, f.selector, OuterHtml, None)), params, deleted));
    } else {
      r := Ok(Step(None, params, deleted));
    }
  }

  /** fields2parts: the field loop, then the validation loop. A field's
      Params map is its own (the payload's, or a fresh empty one for nil),
      so a deletion from it persists only when it was not nil. */
  method Fields2Parts(p: Payload, prefix: seq<nat>, deleted0: set<seq<nat>>, deleteRegexp: bool,
                      compiles: string -> bool)
    returns (r: Result<(seq<Part>, set<seq<nat>>), PlanError>)
    ensures r == Fields2PartsSpec(p, prefix, deleted0, deleteRegexp, compiles)
    decreases FieldsSize(p.fields), 3, 0
  {
    var parts: seq<Part> := [];
    var deleted := deleted0;
    for i := 0 to |p.fields|
      invariant CompileFields(p, prefix, i, deleted0, deleteRegexp, compiles) == Ok((parts, deleted))
    {
      var f := p.fields[i];
      var path := prefix + [i];
      var params: Params := if f.extractor.params.Some? then f.extractor.params.value else map[];
      if path in deleted {
        params := params - {"regexp"};
      }
      assert params == StartParams(f, path, deleted);
      FieldSizeBound(p.fields, i);
      var fieldParts := CompileFieldTypes(p, f, path, params, deleted, deleteRegexp, compiles);
      if fieldParts.Err? {
        CompileFieldsStops(p, prefix, i + 1, deleted0, deleteRegexp, compiles);
        return Err(fieldParts.error);
      }
      parts := parts + fieldParts.value.0;
      deleted := Persist(f, path, fieldParts.value.1, fieldParts.value.2, deleteRegexp);
    }
    var invalid := ValidateParts(parts);
    if invalid.Some? {
      return Err(invalid.value);
    }
    return Ok((parts, deleted));
  }

  /** The type loop of fields2parts for one field, updating its Params. */
  method CompileFieldTypes(p: Payload, f: Field, path: seq<nat>, params0: Params, deleted0: set<seq<nat>>,
                           deleteRegexp: bool, compiles: string -> bool)
    returns (r: Result<(seq<Part>, Params, set<seq<nat>>), PlanError>)
    ensures r == CompileTypes(p, f, path, |f.extractor.types|, params0, deleted0, deleteRegexp, compiles)
    decreases FieldSize(f), 1, |f.extractor.types|
  {
    var fieldParts: seq<Part> := [];
    var params := params0;
    var deleted := deleted0;
    for j := 0 to |f.extractor.types|
      invariant CompileTypes(p, f, path, j, params0, deleted0, deleteRegexp, compiles) == Ok((fieldParts, params, deleted))
    {
      var step := CompileType(p, f, path, f.extractor.types[j], params, deleted, deleteRegexp, compiles);
      if step.Err? {
        CompileTypesStops(p, f, path, j + 1, params0, deleted0, deleteRegexp, compiles);
        return Err(step.error);
      }
      fieldParts := fieldParts + OptSeq(step.value.part);
      params := step.value.params;
      deleted := step.value.deleted;
    }
    return Ok((fieldParts, params, deleted));
  }

  /** The validation loop of fields2parts, after the check for no Parts. */
  method ValidateParts(parts: seq<Part>) returns (e: Option<PlanError>)
    ensures e == Validate(parts)
  {
    if |parts| == 0 {
      return Some(NoParts);
    }
    var seen: set<string> := {};
    for i := 0 to |parts|
      invariant seen == NameSet(parts[..i])
      invariant FirstInvalid(parts, 0, {}) == FirstInvalid(parts, i, seen)
    {
      assert NameSet(parts[..i + 1]) == seen + {parts[i].name} by {
        assert parts[..i + 1] == parts[..i] + [parts[i]];
        NameSetSnoc(parts[..i], parts[i]);
      }
      if |parts[i].name| == 0 {
        return Some(NoName(i));
      }
      if parts[i].name in seen {
        return Some(DuplicateName(parts[i].name));
      }
      seen := seen + {parts[i].name};
      if |parts[i].selector| == 0 {
        return Some(NoSelector(i));
      }
    }
    return None;
  }

  lemma NameSetSnoc(parts: seq<Part>, x: Part)
    ensures NameSet(parts + [x]) == NameSet(parts) + {x.name}
  {
    var s := parts + [x];
    assert forall i :: 0 <= i < |parts| ==> s[i] == parts[i];
    assert s[|parts|] == x;
  }

  /** selectors: an append loop over the fields. */
  method Selectors(p: Payload) returns (r: Result<seq<string>, PlanError>)
    ensures r == SelectorsSpec(p)
  {
    var sels: seq<string> := [];
    for i := 0 to |p.fields|
      invariant sels == Filter(FieldSelectors(p.fields)[..i], NonEmpty)
    {
      FilterPrefix(FieldSelectors(p.fields), i, NonEmpty);
      if p.fields[i].selector != "" {
        sels := sels + [p.fields[i].selector];
      }
    }
    assert FieldSelectors(p.fields)[..|p.fields|] == FieldSelectors(p.fields);
    if |sels| == 0 {
      return Err(NoSelectors);
    }
    return Ok(sels);
  }

  lemma FilterPrefix<T>(s: seq<T>, k: nat, keep: T -> bool)
    requires k < |s|
    ensures Filter(s[..k + 1], keep) == Filter(s[..k], keep) + (if keep(s[k]) then [s[k]] else [])
  {
    assert s[..k + 1] == s[..k] + [s[k]];
    FilterAppend(s[..k], s[k], keep);
  }

  /** newScraper. */
  method NewScraper(p: Payload, prefix: seq<nat>, deleted: set<seq<nat>>, deleteRegexp: bool,
                    compiles: string -> bool)
    returns (r: Result<(Scraper, set<seq<nat>>), PlanError>)
    ensures r == NewScraperSpec(p, prefix, deleted, deleteRegexp, compiles)
    decreases FieldsSize(p.fields), 4, 0
  {
    var parts := Fields2Parts(p, prefix, deleted, deleteRegexp, compiles);
    if parts.Err? {
      return Err(parts.error);
    }
    var paginator := if p.paginator.None? then DummyPaginator
                     else BySelector(p.paginator.value.selector, p.paginator.value.attribute);
    var selectors := Selectors(p);
    if selectors.Err? {
      return Err(selectors.error);
    }
    r := Ok((Scraper(p.request, selectors.value, parts.value.0, paginator), parts.value.1));
  }

  /** partNames: the Part names in order. */
  method PartNames(s: Scraper) returns (names: seq<string>)
    ensures |names| == |s.parts|
    ensures forall i :: 0 <= i < |s.parts| ==> names[i] == s.parts[i].name
  {
    names := [];
    for i := 0 to |s.parts|
      invariant |names| == i
      invariant forall j :: 0 <= j < i ==> names[j] == s.parts[j].name
    {
      names := names + [s.parts[i].name];
    }
  }

  // ---------------------------------------------------------------------
  // Errors propagate: once a prefix fails, the whole compile fails alike.

  lemma {:induction false} CompileTypesStops(p: Payload, f: Field, path: seq<nat>, k: nat, params: Params,
                                             deleted: set<seq<nat>>, deleteRegexp: bool, compiles: string -> bool)
    requires k <= |f.extractor.types|
    requires CompileTypes(p, f, path, k, params, deleted, deleteRegexp, compiles).Err?
    ensures CompileTypes(p, f, path, |f.extractor.types|, params, deleted, deleteRegexp, compiles)
            == CompileTypes(p, f, path, k, params, deleted, deleteRegexp, compiles)
    decreases |f.extractor.types| - k
  {
    if k < |f.extractor.types| {
      CompileTypesStops(p, f, path, k + 1, params, deleted, deleteRegexp, compiles);
    }
  }

  lemma {:induction false} CompileFieldsStops(p: Payload, prefix: seq<nat>, n: nat, deleted: set<seq<nat>>,
                                              deleteRegexp: bool, compiles: string -> bool)
    requires n <= |p.fields|
    requires CompileFields(p, prefix, n, deleted, deleteRegexp, compiles).Err?
    ensures CompileFields(p, prefix, |p.fields|, deleted, deleteRegexp, compiles)
            == CompileFields(p, prefix, n, deleted, deleteRegexp, compiles)
    decreases |p.fields| - n
  {
    if n < |p.fields| {
      CompileFieldsStops(p, prefix, n + 1, deleted, deleteRegexp, compiles);
    }
  }

  // ---------------------------------------------------------------------
  // The corrected compiler leaves the deleted set alone.

  lemma {:induction false} NoDeleteTypeStep(p: Payload, f: Field, path: seq<nat>, t: string, params: Params,
                                            deleted: set<seq<nat>>, compiles: string -> bool)
    ensures var r := TypeStep(p, f, path, t, params, deleted, false, compiles);
      r.Ok? ==> r.value.params == params && r.value.deleted == deleted
    decreases FieldSize(f), 0, 0
  {
    var lt := ToLower(t);
    if (lt == "href" || lt == "src") && f.details.Some? {
      NoDeleteNewScraper(DetailsPayload(p, f, f.details.value), path, deleted, compiles);
    }
  }

  lemma {:induction false} NoDeleteTypes(p: Payload, f: Field, path: seq<nat>, k: nat, params: Params,
                                         deleted: set<seq<nat>>, compiles: string -> bool)
    requires k <= |f.extractor.types|
    ensures var r := CompileTypes(p, f, path, k, params, deleted, false, compiles);
      r.Ok? ==> r.value.1 == params && r.value.2 == deleted
    decreases FieldSize(f), 1, k
  {
    if k > 0 {
      NoDeleteTypes(p, f, path, k - 1, params, deleted, compiles);
      var st := CompileTypes(p, f, path, k - 1, params, deleted, false, compiles);
      if st.Ok? {
        NoDeleteTypeStep(p, f, path, f.extractor.types[k - 1], st.value.1, st.value.2, compiles);
      }
    }
  }

  lemma {:induction false} NoDeleteFields(p: Payload, prefix: seq<nat>, n: nat, deleted: set<seq<nat>>,
                                          compiles: string -> bool)
    requires n <= |p.fields|
    ensures var r := CompileFields(p, prefix, n, deleted, false, compiles);
      r.Ok? ==> r.value.1 == deleted
    decreases FieldsSize(p.fields), 2, n
  {
    if n > 0 {
      NoDeleteFields(p, prefix, n - 1, deleted, compiles);
      var acc := CompileFields(p, prefix, n - 1, deleted, false, compiles);
      if acc.Ok? {
        var f := p.fields[n - 1];
        var path := prefix + [n - 1];
        FieldSizeBound(p.fields, n - 1);
        NoDeleteTypes(p, f, path, |f.extractor.types|, StartParams(f, path, acc.value.1), acc.value.1, compiles);
      }
    }
  }

  lemma NoDeleteFields2Parts(p: Payload, prefix: seq<nat>, deleted: set<seq<nat>>, compiles: string -> bool)
    ensures var r := Fields2PartsSpec(p, prefix, deleted, false, compiles);
      r.Ok? ==> r.value.1 == deleted
    decreases FieldsSize(p.fields), 3, 0
  {
    NoDeleteFields(p, prefix, |p.fields|, deleted, compiles);
  }

  lemma NoDeleteNewScraper(p: Payload, prefix: seq<nat>, deleted: set<seq<nat>>, compiles: string -> bool)
    ensures var r := NewScraperSpec(p, prefix, deleted, false, compiles);
      r.Ok? ==> r.value.1 == deleted
    decreases FieldsSize(p.fields), 4, 0
  {
    NoDeleteFields2Parts(p, prefix, deleted, compiles);
  }

  // ---------------------------------------------------------------------
  // The shape of the compiled Parts

  /** The (field, type) pairs that yield a Part: the recognised types of
      the first k types of f, in order. */
  function RecognisedTypes(f: Field, k: nat): seq<(Field, string)>
    requires k <= |f.extractor.types|
  {
    if k == 0 then []
    else RecognisedTypes(f, k - 1)
         + (if KnownType(ToLower(f.extractor.types[k - 1])) then [(f, f.extractor.types[k - 1])] else [])
  }

  /** The same over the first n fields, in field order. */
  function RecognisedFields(fs: seq<Field>, n: nat): seq<(Field, string)>
    requires n <= |fs|
  {
    if n == 0 then [] else RecognisedFields(fs, n - 1) + RecognisedTypes(fs[n - 1], |fs[n - 1].extractor.types|)
  }

  /** The Part compiled for type t of field f: named `<field>_<type>`, with
      the field's selector, a sub-scraper exactly for href/src types of a
      field with Details, and a Regex extractor exactly for regex types. */
  predicate PartFor(part: Part, pair: (Field, string))
  {
    var lt := ToLower(pair.1);
    part.name == pair.0.name + "_" + pair.1
    && part.selector == pair.0.selector
    && (part.details.Some? <==> (lt == "href" || lt == "src") && pair.0.details.Some?)
    && (part.extractor.Regex? <==> lt == "regex")
  }

  predicate PartsFor(parts: seq<Part>, pairs: seq<(Field, string)>)
  {
    |parts| == |pairs| && forall i :: 0 <= i < |parts| ==> PartFor(parts[i], pairs[i])
  }

  lemma PartsForAppend(a: seq<Part>, pa: seq<(Field, string)>, b: seq<Part>, pb: seq<(Field, string)>)
    requires PartsFor(a, pa) && PartsFor(b, pb)
    ensures PartsFor(a + b, pa + pb)
  {
    forall i | 0 <= i < |a + b|
      ensures PartFor((a + b)[i], (pa + pb)[i])
    {
      if i >= |a| {
        assert (a + b)[i] == b[i - |a|] && (pa + pb)[i] == pb[i - |a|];
      }
    }
  }

  lemma TypeStepShape(p: Payload, f: Field, path: seq<nat>, t: string, params: Params,
                      deleted: set<seq<nat>>, deleteRegexp: bool, compiles: string -> bool)
    ensures var r := TypeStep(p, f, path, t, params, deleted, deleteRegexp, compiles);
      r.Ok? ==> (r.value.part.Some? <==> KnownType(ToLower(t)))
                && (r.value.part.Some? ==> PartFor(r.value.part.value, (f, t)))
  {
  }

  lemma {:induction false} CompileTypesShape(p: Payload, f: Field, path: seq<nat>, k: nat, params: Params,
                                             deleted: set<seq<nat>>, deleteRegexp: bool, compiles: string -> bool)
    requires k <= |f.extractor.types|
    ensures var r := CompileTypes(p, f, path, k, params, deleted, deleteRegexp, compiles);
      r.Ok? ==> PartsFor(r.value.0, RecognisedTypes(f, k))
  {
    if k > 0 {
      CompileTypesShape(p, f, path, k - 1, params, deleted, deleteRegexp, compiles);
      var st := CompileTypes(p, f, path, k - 1, params, deleted, deleteRegexp, compiles);
      if st.Ok? {
        var t := f.extractor.types[k - 1];
        TypeStepShape(p, f, path, t, st.value.1, st.value.2, deleteRegexp, compiles);
        var step := TypeStep(p, f, path, t, st.value.1, st.value.2, deleteRegexp, compiles);
        if step.Ok? {
          PartsForAppend(st.value.0, RecognisedTypes(f, k - 1), OptSeq(step.value.part),
                         if KnownType(ToLower(t)) then [(f, t)] else []);
        }
      }
    }
  }

  /** Compiling the first n fields yields exactly one Part per recognised
      (field, type) pair, in field order then type order; unknown types
      are skipped. */
  lemma {:induction false} CompileFieldsShape(p: Payload, prefix: seq<nat>, n: nat, deleted: set<seq<nat>>,
                                              deleteRegexp: bool, compiles: string -> bool)
    requires n <= |p.fields|
    ensures var r := CompileFields(p, prefix, n, deleted, deleteRegexp, compiles);
      r.Ok? ==> PartsFor(r.value.0, RecognisedFields(p.fields, n))
  {
    if n > 0 {
      CompileFieldsShape(p, prefix, n - 1, deleted, deleteRegexp, compiles);
      var acc := CompileFields(p, prefix, n - 1, deleted, deleteRegexp, compiles);
      if acc.Ok? {
        var f := p.fields[n - 1];
        var path := prefix + [n - 1];
        CompileTypesShape(p, f, path, |f.extractor.types|, StartParams(f, path, acc.value.1), acc.value.1,
                          deleteRegexp, compiles);
        var st := CompileTypes(p, f, path, |f.extractor.types|, StartParams(f, path, acc.value.1), acc.value.1,
                               deleteRegexp, compiles);
        if st.Ok? {
          PartsForAppend(acc.value.0, RecognisedFields(p.fields, n - 1), st.value.0,
                         RecognisedTypes(f, |f.extractor.types|));
        }
      }
    }
  }

  lemma {:induction false} RecognisedTypesFrom(f: Field, k: nat)
    requires k <= |f.extractor.types|
    ensures forall q :: q in RecognisedTypes(f, k) ==> q.0 == f
  {
    if k > 0 {
      RecognisedTypesFrom(f, k - 1);
    }
  }

  lemma {:induction false} RecognisedFieldsFrom(fs: seq<Field>, n: nat)
    requires n <= |fs|
    ensures forall q :: q in RecognisedFields(fs, n) ==> q.0 in fs
  {
    if n > 0 {
      RecognisedFieldsFrom(fs, n - 1);
      RecognisedTypesFrom(fs[n - 1], |fs[n - 1].extractor.types|);
    }
  }

  /** A compiled Scraper has one Part per recognised type of its payload's
      fields, named `<field>_<type>` and carrying the field's selector, and
      only the non-empty selectors of the fields, in order. */
  lemma CompileShape(p: Payload, compiles: string -> bool)
    ensures Compile(p, compiles).Ok? ==>
      PartsFor(Compile(p, compiles).value.parts, RecognisedFields(p.fields, |p.fields|))
      && Compile(p, compiles).value.selectors == Filter(FieldSelectors(p.fields), NonEmpty)
      && Compile(p, compiles).value.request == p.request
      && (Compile(p, compiles).value.paginator.DummyPaginator? <==> p.paginator.None?)
  {
    CompileFieldsShape(p, [], |p.fields|, {}, false, compiles);
    var acc := CompileFields(p, [], |p.fields|, {}, false, compiles);
    var f2p := Fields2PartsSpec(p, [], {}, false, compiles);
    var ns := NewScraperSpec(p, [], {}, false, compiles);
    if ns.Ok? {
      assert f2p.Ok? && ns.value.0.parts == f2p.value.0;
      assert acc.Ok? && f2p.value.0 == acc.value.0;
    }
  }

  // ---------------------------------------------------------------------
  // Validation

  predicate DistinctNames(parts: seq<Part>)
  {
    forall i, j :: 0 <= i < j < |parts| ==> parts[i].name != parts[j].name
  }

  predicate WellFormedParts(parts: seq<Part>)
  {
    |parts| > 0
    && (forall i :: 0 <= i < |parts| ==> parts[i].name != [] && parts[i].selector != [])
    && DistinctNames(parts)
  }

  lemma {:induction false} FirstInvalidMeaning(parts: seq<Part>, i: nat, seen: set<string>)
    requires i <= |parts|
    requires seen == NameSet(parts[..i])
    ensures FirstInvalid(parts, i, seen).None? <==>
      (forall j :: i <= j < |parts| ==> parts[j].name != [] && parts[j].selector != [] && parts[j].name !in seen)
      && (forall j, k :: i <= j < k < |parts| ==> parts[j].name != parts[k].name)
    ensures match FirstInvalid(parts, i, seen)
      case None => true
      case Some(e) =>
        (e.NoName? && i <= e.index < |parts| && parts[e.index].name == [])
        || (e.NoSelector? && i <= e.index < |parts| && parts[e.index].selector == [])
        || (e.DuplicateName? && exists j, k :: 0 <= j < k < |parts| && parts[j].name == e.name && parts[k].name == e.name)
    decreases |parts| - i
  {
    if i < |parts| {
      assert parts[..i + 1] == parts[..i] + [parts[i]];
      NameSetSnoc(parts[..i], parts[i]);
      FirstInvalidMeaning(parts, i + 1, seen + {parts[i].name});
      if parts[i].name in seen {
        var j :| 0 <= j < i && parts[..i][j].name == parts[i].name;
        assert parts[j].name == parts[i].name;
      }
      if FirstInvalid(parts, i + 1, seen + {parts[i].name}).None? {
        forall j | i + 1 <= j < |parts|
          ensures parts[i].name != parts[j].name
        {
        }
      }
    }
  }

  /** fields2parts' validation accepts exactly the non-empty lists of
      Parts with non-empty, pairwise distinct names and non-empty
      selectors; each error names a Part that has the fault. */
  lemma ValidateMeaning(parts: seq<Part>)
    ensures Validate(parts).None? <==> WellFormedParts(parts)
    ensures Validate(parts) == Some(NoParts) <==> |parts| == 0
    ensures match Validate(parts)
      case None => true
      case Some(e) =>
        e.NoParts?
        || (e.NoName? && e.index < |parts| && parts[e.index].name == [])
        || (e.NoSelector? && e.index < |parts| && parts[e.index].selector == [])
        || (e.DuplicateName? && exists j, k :: 0 <= j < k < |parts| && parts[j].name == e.name && parts[k].name == e.name)
  {
    if |parts| > 0 {
      assert parts[..0] == [];
      assert NameSet([]) == {};
      FirstInvalidMeaning(parts, 0, {});
    }
  }

  /** The errors compiling can end with: the missing-name and the
      no-selectors checks never fire. */
  predicate ReachableError(e: PlanError)
  {
    !e.NoName? && !e.NoSelectors?
  }

  lemma {:induction false} TypeStepErrors(p: Payload, f: Field, path: seq<nat>, t: string, params: Params,
                                          deleted: set<seq<nat>>, deleteRegexp: bool, compiles: string -> bool)
    ensures var r := TypeStep(p, f, path, t, params, deleted, deleteRegexp, compiles);
      r.Err? ==> ReachableError(r.error)
    decreases FieldSize(f), 0, 0
  {
    var lt := ToLower(t);
    if (lt == "href" || lt == "src") && f.details.Some? {
      NoSelectorsUnreachable(DetailsPayload(p, f, f.details.value), path, deleted, deleteRegexp, compiles);
    }
  }

  lemma {:induction false} CompileTypesErrors(p: Payload, f: Field, path: seq<nat>, k: nat, params: Params,
                                              deleted: set<seq<nat>>, deleteRegexp: bool, compiles: string -> bool)
    requires k <= |f.extractor.types|
    ensures var r := CompileTypes(p, f, path, k, params, deleted, deleteRegexp, compiles);
      r.Err? ==> ReachableError(r.error)
    decreases FieldSize(f), 1, k
  {
    if k > 0 {
      CompileTypesErrors(p, f, path, k - 1, params, deleted, deleteRegexp, compiles);
      var st := CompileTypes(p, f, path, k - 1, params, deleted, deleteRegexp, compiles);
      if st.Ok? {
        TypeStepErrors(p, f, path, f.extractor.types[k - 1], st.value.1, st.value.2, deleteRegexp, compiles);
      }
    }
  }

  lemma {:induction false} CompileFieldsErrors(p: Payload, prefix: seq<nat>, n: nat, deleted: set<seq<nat>>,
                                               deleteRegexp: bool, compiles: string -> bool)
    requires n <= |p.fields|
    ensures var r := CompileFields(p, prefix, n, deleted, deleteRegexp, compiles);
      r.Err? ==> ReachableError(r.error)
    decreases FieldsSize(p.fields), 2, n
  {
    if n > 0 {
      CompileFieldsErrors(p, prefix, n - 1, deleted, deleteRegexp, compiles);
      var acc := CompileFields(p, prefix, n - 1, deleted, deleteRegexp, compiles);
      if acc.Ok? {
        var f := p.fields[n - 1];
        var path := prefix + [n - 1];
        FieldSizeBound(p.fields, n - 1);
        CompileTypesErrors(p, f, path, |f.extractor.types|, StartParams(f, path, acc.value.1), acc.value.1,
                           deleteRegexp, compiles);
      }
    }
  }

  /** Compiled Part names always contain the "_" separator, so the
      missing-name check of fields2parts never fires, here or in any
      Details sub-scraper. */
  lemma {:induction false} NeverNoName(p: Payload, prefix: seq<nat>, deleted: set<seq<nat>>, deleteRegexp: bool,
                                       compiles: string -> bool)
    ensures var r := Fields2PartsSpec(p, prefix, deleted, deleteRegexp, compiles);
      r.Err? ==> ReachableError(r.error)
    decreases FieldsSize(p.fields), 3, 0
  {
    CompileFieldsErrors(p, prefix, |p.fields|, deleted, deleteRegexp, compiles);
    CompileFieldsShape(p, prefix, |p.fields|, deleted, deleteRegexp, compiles);
    var acc := CompileFields(p, prefix, |p.fields|, deleted, deleteRegexp, compiles);
    if acc.Ok? {
      var parts := acc.value.0;
      var pairs := RecognisedFields(p.fields, |p.fields|);
      forall i | 0 <= i < |parts|
        ensures parts[i].name != []
      {
        assert PartFor(parts[i], pairs[i]);
        assert |parts[i].name| == |pairs[i].0.name| + 1 + |pairs[i].1|;
      }
      ValidateMeaning(parts);
      assert Fields2PartsSpec(p, prefix, deleted, deleteRegexp, compiles)
             == (match Validate(parts) case Some(e) => Err(e) case None => Ok(acc.value));
    }
  }

  /** newScraper's "no selectors" error is unreachable: a payload whose
      Parts validate has a field with a non-empty selector. */
  lemma {:induction false} NoSelectorsUnreachable(p: Payload, prefix: seq<nat>, deleted: set<seq<nat>>,
                                                  deleteRegexp: bool, compiles: string -> bool)
    ensures var r := NewScraperSpec(p, prefix, deleted, deleteRegexp, compiles);
      r.Err? ==> ReachableError(r.error)
    decreases FieldsSize(p.fields), 4, 0
  {
    NeverNoName(p, prefix, deleted, deleteRegexp, compiles);
    var f2p := Fields2PartsSpec(p, prefix, deleted, deleteRegexp, compiles);
    if f2p.Ok? {
      var parts := f2p.value.0;
      var acc := CompileFields(p, prefix, |p.fields|, deleted, deleteRegexp, compiles);
      assert acc.Ok? && acc.value.0 == parts && Validate(parts).None?;
      assert NewScraperSpec(p, prefix, deleted, deleteRegexp, compiles)
             == (match SelectorsSpec(p)
                 case Err(e) => Err(e)
                 case Ok(sels) => Ok((Scraper(p.request, sels, parts, PagerOf(p.paginator)), f2p.value.1)));
      CompileFieldsShape(p, prefix, |p.fields|, deleted, deleteRegexp, compiles);
      ValidateMeaning(parts);
      var pairs := RecognisedFields(p.fields, |p.fields|);
      assert PartFor(parts[0], pairs[0]);
      RecognisedFieldsFrom(p.fields, |p.fields|);
      assert pairs[0] in pairs;
      var i :| 0 <= i < |p.fields| && p.fields[i] == pairs[0].0;
      assert FieldSelectors(p.fields)[i] == parts[0].selector;
      FilterKeeps(FieldSelectors(p.fields), parts[0].selector, NonEmpty);
    }
  }

  // ---------------------------------------------------------------------
  // The request plays no part in whether compiling succeeds

  lemma {:induction false} FirstInvalidByNames(a: seq<Part>, b: seq<Part>, i: nat, seen: set<string>)
    requires |a| == |b| && i <= |a|
    requires forall j :: 0 <= j < |a| ==> a[j].name == b[j].name && a[j].selector == b[j].selector
    ensures FirstInvalid(a, i, seen) == FirstInvalid(b, i, seen)
    decreases |a| - i
  {
    if i < |a| {
      FirstInvalidByNames(a, b, i + 1, seen + {a[i].name});
    }
  }

  /** Two Part lists compiled from the same (field, type) pairs agree on
      names and selectors. */
  lemma PartsForSameNames(a: seq<Part>, b: seq<Part>, pairs: seq<(Field, string)>)
    requires PartsFor(a, pairs) && PartsFor(b, pairs)
    ensures |a| == |b|
    ensures forall j :: 0 <= j < |a| ==> a[j].name == b[j].name && a[j].selector == b[j].selector
  {
    forall j | 0 <= j < |a|
      ensures a[j].name == b[j].name && a[j].selector == b[j].selector
    {
      assert PartFor(a[j], pairs[j]) && PartFor(b[j], pairs[j]);
    }
  }

  predicate SameShape(p: Payload, q: Payload)
  {
    p.fields == q.fields && p.paginator == q.paginator
  }

  predicate Agree<T, U>(a: Result<T, PlanError>, b: Result<U, PlanError>)
  {
    a.Err? == b.Err? && (a.Err? ==> a.error == b.error)
  }

  lemma {:induction false} TypeStepAgrees(p: Payload, q: Payload, f: Field, path: seq<nat>, t: string, params: Params,
                                          deleted: set<seq<nat>>, deleteRegexp: bool, compiles: string -> bool)
    requires SameShape(p, q)
    ensures var a := TypeStep(p, f, path, t, params, deleted, deleteRegexp, compiles);
      var b := TypeStep(q, f, path, t, params, deleted, deleteRegexp, compiles);
      Agree(a, b) && (a.Ok? ==> a.value.params == b.value.params && a.value.deleted == b.value.deleted)
    decreases FieldSize(f), 0, 0
  {
    var lt := ToLower(t);
    if (lt == "href" || lt == "src") && f.details.Some? {
      var d := f.details.value;
      NewScraperAgrees(DetailsPayload(p, f, d), DetailsPayload(q, f, d), path, deleted, deleteRegexp, compiles);
    }
  }

  lemma {:induction false} CompileTypesAgrees(p: Payload, q: Payload, f: Field, path: seq<nat>, k: nat, params: Params,
                                              deleted: set<seq<nat>>, deleteRegexp: bool, compiles: string -> bool)
    requires SameShape(p, q) && k <= |f.extractor.types|
    ensures var a := CompileTypes(p, f, path, k, params, deleted, deleteRegexp, compiles);
      var b := CompileTypes(q, f, path, k, params, deleted, deleteRegexp, compiles);
      Agree(a, b) && (a.Ok? ==> a.value.1 == b.value.1 && a.value.2 == b.value.2)
    decreases FieldSize(f), 1, k
  {
    if k > 0 {
      CompileTypesAgrees(p, q, f, path, k - 1, params, deleted, deleteRegexp, compiles);
      var st := CompileTypes(p, f, path, k - 1, params, deleted, deleteRegexp, compiles);
      if st.Ok? {
        TypeStepAgrees(p, q, f, path, f.extractor.types[k - 1], st.value.1, st.value.2, deleteRegexp, compiles);
      }
    }
  }

  lemma {:induction false} CompileFieldsAgrees(p: Payload, q: Payload, prefix: seq<nat>, n: nat, deleted: set<seq<nat>>,
                                               deleteRegexp: bool, compiles: string -> bool)
    requires SameShape(p, q) && n <= |p.fields|
    ensures var a := CompileFields(p, prefix, n, deleted, deleteRegexp, compiles);
      var b := CompileFields(q, prefix, n, deleted, deleteRegexp, compiles);
      Agree(a, b) && (a.Ok? ==> a.value.1 == b.value.1)
    decreases FieldsSize(p.fields), 2, n
  {
    if n > 0 {
      CompileFieldsAgrees(p, q, prefix, n - 1, deleted, deleteRegexp, compiles);
      var acc := CompileFields(p, prefix, n - 1, deleted, deleteRegexp, compiles);
      if acc.Ok? {
        var f := p.fields[n - 1];
        var path := prefix + [n - 1];
        FieldSizeBound(p.fields, n - 1);
        CompileTypesAgrees(p, q, f, path, |f.extractor.types|, StartParams(f, path, acc.value.1), acc.value.1,
                           deleteRegexp, compiles);
      }
    }
  }

  lemma {:induction false} Fields2PartsAgrees(p: Payload, q: Payload, prefix: seq<nat>, deleted: set<seq<nat>>,
                                              deleteRegexp: bool, compiles: string -> bool)
    requires SameShape(p, q)
    ensures var a := Fields2PartsSpec(p, prefix, deleted, deleteRegexp, compiles);
      var b := Fields2PartsSpec(q, prefix, deleted, deleteRegexp, compiles);
      Agree(a, b) && (a.Ok? ==> a.value.1 == b.value.1)
    decreases FieldsSize(p.fields), 3, 0
  {
    CompileFieldsAgrees(p, q, prefix, |p.fields|, deleted, deleteRegexp, compiles);
    var a := CompileFields(p, prefix, |p.fields|, deleted, deleteRegexp, compiles);
    var b := CompileFields(q, prefix, |q.fields|, deleted, deleteRegexp, compiles);
    if a.Ok? {
      CompileFieldsShape(p, prefix, |p.fields|, deleted, deleteRegexp, compiles);
      CompileFieldsShape(q, prefix, |q.fields|, deleted, deleteRegexp, compiles);
      PartsForSameNames(a.value.0, b.value.0, RecognisedFields(p.fields, |p.fields|));
      FirstInvalidByNames(a.value.0, b.value.0, 0, {});
    }
  }

  lemma {:induction false} NewScraperAgrees(p: Payload, q: Payload, prefix: seq<nat>, deleted: set<seq<nat>>,
                                            deleteRegexp: bool, compiles: string -> bool)
    requires SameShape(p, q)
    ensures var a := NewScraperSpec(p, prefix, deleted, deleteRegexp, compiles);
      var b := NewScraperSpec(q, prefix, deleted, deleteRegexp, compiles);
      Agree(a, b) && (a.Ok? ==> a.value.1 == b.value.1)
    decreases FieldsSize(p.fields), 4, 0
  {
    Fields2PartsAgrees(p, q, prefix, deleted, deleteRegexp, compiles);
  }

  // ---------------------------------------------------------------------
  // Compiling a second time, as the paginator does for the next page

  /** The compile scrape performs for the next page (a copy of the payload
      with the next page's request), after the compile of the first page
      has succeeded; `deleteRegexp` as in the rest of the module. */
  function SecondCompile(p: Payload, next: ScrapeRequest, deleteRegexp: bool, compiles: string -> bool)
    : Result<Scraper, PlanError>
  {
    match NewScraperSpec(p, [], {}, deleteRegexp, compiles)
    case Err(e) => Err(e)
    case Ok(first) => Value1(NewScraperSpec(p.(request := next), [], first.1, deleteRegexp, compiles))
  }

  /** Corrected: the next page's compile succeeds exactly when the first
      one did, and fails with the same error. */
  lemma SecondCompileAgrees(p: Payload, next: ScrapeRequest, compiles: string -> bool)
    ensures SecondCompile(p, next, false, compiles).Ok? <==> Compile(p, compiles).Ok?
    ensures Compile(p, compiles).Err? ==> SecondCompile(p, next, false, compiles) == Compile(p, compiles)
    ensures SecondCompile(p, next, false, compiles) == Compile(p.(request := next), compiles)
  {
    NoDeleteNewScraper(p, [], {}, compiles);
    NewScraperAgrees(p, p.(request := next), [], {}, false, compiles);
  }

  /** A field with one regex extractor whose pattern is given in Params. */
  const PriceParams: Params := map["regexp" := VStr("[0-9]+")]

  const PriceField: Field := Field("price", ".price", Extractor(["regex"], Some(PriceParams), []), None)

  const PricePart: Part := Part("price_regex", ".price", Regex("[0-9]+"), None)

  const ShopPayload: Payload :=
    Payload("shop", ScrapeRequest(BaseFetcher, "http://shop.example/"), "base", [PriceField],
            Some(PaginatorSpec(".next", "href", 3, false)), "json", Some(false), "md5")

  /** As written: the first compile of ShopPayload succeeds but deletes the
      pattern from the shared Params, so the compile for the next page
      panics in the `regExp.(string)` assertion. */
  lemma SecondCompilePanicsAsWritten(compiles: string -> bool, next: ScrapeRequest)
    requires compiles("[0-9]+")
    ensures NewScraperSpec(ShopPayload, [], {}, true, compiles).Ok?
    ensures SecondCompile(ShopPayload, next, true, compiles) == Err(RegexNotString)
    ensures SecondCompile(ShopPayload, next, false, compiles).Ok?
  {
    ShopCompiles(true, compiles);
    ShopNextCompile(compiles, next);
    ShopCompiles(false, compiles);
    SecondCompileAgrees(ShopPayload, next, compiles);
  }

  /** The price field's one type compiles to PricePart; deleting as
      written drops the pattern from the Params. */
  lemma ShopTypeStep(deleteRegexp: bool, compiles: string -> bool)
    requires compiles("[0-9]+")
    ensures TypeStep(ShopPayload, PriceField, [0], "regex", PriceParams, {}, deleteRegexp, compiles)
            == Ok(Step(Some(PricePart), if deleteRegexp then PriceParams - {"regexp"} else PriceParams, {}))
  {
    ToLowerNoUpper("regex");
    assert "price" + "_" + "regex" == "price_regex";
    assert PriceParams["regexp"].s == "[0-9]+";
  }

  lemma ShopCompileFields(deleteRegexp: bool, compiles: string -> bool)
    requires compiles("[0-9]+")
    ensures CompileFields(ShopPayload, [], 1, {}, deleteRegexp, compiles)
            == Ok(([PricePart], if deleteRegexp then {[0]} else {}))
  {
    ShopTypeStep(deleteRegexp, compiles);
    var after := if deleteRegexp then PriceParams - {"regexp"} else PriceParams;
    assert ShopPayload.fields[0] == PriceField && PriceField.extractor.types[0] == "regex";
    assert [] + [0] == [0];
    assert StartParams(PriceField, [0], {}) == PriceParams;
    assert CompileTypes(ShopPayload, PriceField, [0], 0, PriceParams, {}, deleteRegexp, compiles) == Ok(([], PriceParams, {}));
    assert [] + OptSeq(Some(PricePart)) == [PricePart];
    assert CompileTypes(ShopPayload, PriceField, [0], 1, PriceParams, {}, deleteRegexp, compiles)
           == Ok(([PricePart], after, {}));
    assert deleteRegexp ==> "regexp" !in after;
    assert Persist(PriceField, [0], after, {}, deleteRegexp) == if deleteRegexp then {[0]} else {};
  }

  /** The first compile succeeds, as written and corrected; as written it
      records the deletion of field 0's pattern. */
  lemma ShopCompiles(deleteRegexp: bool, compiles: string -> bool)
    requires compiles("[0-9]+")
    ensures NewScraperSpec(ShopPayload, [], {}, deleteRegexp, compiles).Ok?
    ensures NewScraperSpec(ShopPayload, [], {}, deleteRegexp, compiles).value.1 == if deleteRegexp then {[0]} else {}
  {
    ShopCompileFields(deleteRegexp, compiles);
    assert Validate([PricePart]).None?;
    assert Fields2PartsSpec(ShopPayload, [], {}, deleteRegexp, compiles) == Ok(([PricePart], if deleteRegexp then {[0]} else {}));
    ShopSelectors();
  }

  lemma ShopSelectors()
    ensures SelectorsSpec(ShopPayload) == Ok([".price"])
  {
    assert FieldSelectors(ShopPayload.fields) == [".price"];
    assert Filter([".price"], NonEmpty) == [".price"];
  }

  /** With field 0's pattern deleted, the next page's compile panics. */
  lemma ShopNextCompile(compiles: string -> bool, next: ScrapeRequest)
    ensures NewScraperSpec(ShopPayload.(request := next), [], {[0]}, true, compiles) == Err(RegexNotString)
  {
    var q := ShopPayload.(request := next);
    ShopNextTypeStep(compiles, next);
    assert q.fields[0] == PriceField && PriceField.extractor.types[0] == "regex";
    assert [] + [0] == [0];
    assert StartParams(PriceField, [0], {[0]}) == PriceParams - {"regexp"};
    assert CompileTypes(q, PriceField, [0], 1, PriceParams - {"regexp"}, {[0]}, true, compiles) == Err(RegexNotString);
    assert CompileFields(q, [], 1, {[0]}, true, compiles) == Err(RegexNotString);
  }

  lemma ShopNextTypeStep(compiles: string -> bool, next: ScrapeRequest)
    ensures TypeStep(ShopPayload.(request := next), PriceField, [0], "regex", PriceParams - {"regexp"}, {[0]}, true, compiles)
            == Err(RegexNotString)
  {
    ToLowerNoUpper("regex");
    assert "regexp" !in PriceParams - {"regexp"};
  }
}
