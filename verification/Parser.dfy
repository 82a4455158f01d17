/** The legacy parser of parser/parser.go: for each collection of a
    payload, find the common container of the fields' matches, take its
    blocks, fill one item per block with the text, link or image each field
    selects, name the table columns after the fields' attributes, and cache
    the marshalled output in Redis.

    The HTML parser, goquery's selection functions, GetHTML, JSON
    unmarshalling, MD5, the marshallers and Redis's SET reply are oracles.
    A goquery selection is its list of nodes. A Go panic is the `Panic`
    error outcome. */
module Parser {
  import opened Base
  import Caching

  /** An HTML node: whether it is an element, its tag (Data), its
      attributes and its text content. */
  datatype Node = Node(isElement: bool, data: string, attrs: map<string, string>, text: string)

  /** A goquery selection. */
  datatype Selection = Selection(nodes: seq<Node>)

  /** Selection.Attr: the attribute of the first node. */
  function Attr(s: Selection, name: string): (r: Option<string>)
    ensures r.Some? <==> |s.nodes| > 0 && name in s.nodes[0].attrs
  {
    if |s.nodes| > 0 && name in s.nodes[0].attrs then Some(s.nodes[0].attrs[name]) else None
  }

  /** Selection.Text: the texts of all nodes, one after the other. */
  function Text(nodes: seq<Node>): string
  {
    if nodes == [] then "" else Text(nodes[..|nodes| - 1]) + nodes[|nodes| - 1].text
  }

  datatype Field = Field(fieldName: string, cssSelector: string)
  datatype Collection = Collection(name: string, url: string, fields: seq<Field>)
  datatype Payloads = Payloads(format: string, collections: seq<Collection>)

  /** What an item holds for a field: the trimmed text, or the map of a
      link's or an image's attributes. */
  datatype ItemValue = Str(s: string) | Sub(m: map<string, string>)
  type ItemMap = map<string, ItemValue>

  datatype ParseItemError = EmptyURL | NoSelectors | HTMLError(msg: string) | Panic

  /** The HTML parser and goquery. */
  datatype Dom = Dom(
    parse: Bytes -> Result<Selection, string>,   // html.Parse, then the document
    find: (Selection, string) -> Selection,      // Selection.Find
    parents: Selection -> Selection,             // Selection.Parents
    intersection: (Selection, Selection) -> Selection,
    parent: Selection -> Selection,              // Selection.Parent
    children: Selection -> Selection)            // Selection.Children

  // ---------------------------------------------------------------------
  // attrOrDataValue, genAttrFieldName, fillOutItem

  /** attrOrDataValue: ".class" with the trimmed class's spaces turned into
      dots, else "#id", else the tag of the first node; on an empty
      selection it panics (None). */
  function AttrOrDataValue(s: Selection): (r: Option<string>)
    ensures r.None? <==> |s.nodes| == 0
    ensures Attr(s, "class").Some? ==>
              r.Some? && |r.value| >= 1 && r.value[0] == '.' && forall i :: 0 <= i < |r.value| ==> r.value[i] != ' '
    ensures Attr(s, "class").None? && Attr(s, "id").Some? ==> r == Some("#" + Attr(s, "id").value)
    ensures Attr(s, "class").None? && Attr(s, "id").None? && |s.nodes| > 0 ==> r == Some(s.nodes[0].data)
  {
    match Attr(s, "class")
    case Some(c) =>
      var dotted := ReplaceChar(TrimSpace(c), ' ', '.');
      assert forall i :: 0 <= i < |dotted| ==> dotted[i] != ' ';
      Some("." + dotted)
    case None =>
      match Attr(s, "id")
      case Some(id) => Some("#" + id)
      case None => if |s.nodes| == 0 then None else Some(s.nodes[0].data)
  }

  /** The columns genAttrFieldName adds for a field: text and href for a
      link, src and alt for an image, else the field name alone. */
  function AttrFieldNames(fieldName: string, sel: Selection): (r: seq<string>)
  {
    if Attr(sel, "href").Some? then [fieldName + "_text", fieldName + "_href"]
    else if Attr(sel, "src").Some? then [fieldName + "_src", fieldName + "_alt"]
    else [fieldName]
  }

  /** What fillOutItem stores for a selection, if anything: for an `a`
      element with href, its href, trimmed text and trimmed title if any;
      for an `img` with src, its src and trimmed alt if any; for any other
      element, its trimmed text. */
  function Filled(s: Selection): Option<ItemValue>
  {
    if |s.nodes| > 0 && s.nodes[0].isElement then
      var nodeType := s.nodes[0].data;
      if nodeType == "a" then
        match Attr(s, "href")
        case None => None
        case Some(href) =>
          var m := map["href" := href, "text" := TrimSpace(Text(s.nodes))];
          match Attr(s, "title")
          case Some(title) => Some(Sub(m["title" := TrimSpace(title)]))
          case None => Some(Sub(m))
      else if nodeType == "img" then
        match Attr(s, "src")
        case None => None
        case Some(src) =>
          match Attr(s, "alt")
          case Some(alt) => Some(Sub(map["src" := src, "alt" := TrimSpace(alt)]))
          case None => Some(Sub(map["src" := src]))
      else Some(Str(TrimSpace(Text(s.nodes))))
    else None
  }

  /** Filled's meaning, case by case. */
  lemma FilledMeaning(s: Selection)
    ensures Filled(s).Some? ==> |s.nodes| > 0 && s.nodes[0].isElement
    ensures Filled(s).Some? && s.nodes[0].data == "a" ==>
              Filled(s).value.Sub? && Filled(s).value.m.Keys <= {"href", "text", "title"}
              && Attr(s, "href").Some? && "href" in Filled(s).value.m && Filled(s).value.m["href"] == Attr(s, "href").value
              && "text" in Filled(s).value.m && Filled(s).value.m["text"] == TrimSpace(Text(s.nodes))
              && ("title" in Filled(s).value.m <==> Attr(s, "title").Some?)
    ensures Filled(s).Some? && s.nodes[0].data == "img" ==>
              Filled(s).value.Sub? && Filled(s).value.m.Keys <= {"src", "alt"}
              && Attr(s, "src").Some? && "src" in Filled(s).value.m && Filled(s).value.m["src"] == Attr(s, "src").value
              && ("alt" in Filled(s).value.m <==> Attr(s, "alt").Some?)
    ensures Filled(s).Some? && s.nodes[0].data != "a" && s.nodes[0].data != "img" ==> Filled(s) == Some(Str(TrimSpace(Text(s.nodes))))
    ensures |s.nodes| > 0 && s.nodes[0].isElement ==>
              (Filled(s).None? <==> (s.nodes[0].data == "a" && Attr(s, "href").None?)
                                    || (s.nodes[0].data == "img" && Attr(s, "src").None?))
  {
    if |s.nodes| > 0 && s.nodes[0].isElement {
      if s.nodes[0].data == "a" && Attr(s, "href").Some? {
        FilledLink(s);
      } else if s.nodes[0].data == "img" && Attr(s, "src").Some? {
        FilledImage(s);
      }
    }
  }

  /** The attribute keys of a link's and an image's item are distinct. */
  lemma ItemKeysDistinct()
    ensures "href" != "text" && "href" != "title" && "text" != "title" && "src" != "alt"
  {
    assert "href"[0] == 'h' && "text"[0] == 't' && "title"[1] == 'i' && "text"[1] == 'e';
    assert "src"[0] == 's' && "alt"[0] == 'a';
  }

  lemma FilledLink(s: Selection)
    requires |s.nodes| > 0 && s.nodes[0].isElement && s.nodes[0].data == "a" && Attr(s, "href").Some?
    ensures Filled(s).Some? && Filled(s).value.Sub?
    ensures Filled(s).value.m.Keys <= {"href", "text", "title"}
    ensures "href" in Filled(s).value.m && Filled(s).value.m["href"] == Attr(s, "href").value
    ensures "text" in Filled(s).value.m && Filled(s).value.m["text"] == TrimSpace(Text(s.nodes))
    ensures "title" in Filled(s).value.m <==> Attr(s, "title").Some?
  {
    ItemKeysDistinct();
    var m := map["href" := Attr(s, "href").value, "text" := TrimSpace(Text(s.nodes))];
    if Attr(s, "title").Some? {
      assert Filled(s) == Some(Sub(m["title" := TrimSpace(Attr(s, "title").value)]));
    } else {
      assert Filled(s) == Some(Sub(m));
    }
  }

  lemma FilledImage(s: Selection)
    requires |s.nodes| > 0 && s.nodes[0].isElement && s.nodes[0].data == "img" && Attr(s, "src").Some?
    ensures Filled(s).Some? && Filled(s).value.Sub?
    ensures Filled(s).value.m.Keys <= {"src", "alt"}
    ensures "src" in Filled(s).value.m && Filled(s).value.m["src"] == Attr(s, "src").value
    ensures "alt" in Filled(s).value.m <==> Attr(s, "alt").Some?
  {
    ItemKeysDistinct();
    if Attr(s, "alt").Some? {
      assert Filled(s) == Some(Sub(map["src" := Attr(s, "src").value, "alt" := TrimSpace(Attr(s, "alt").value)]));
    } else {
      assert Filled(s) == Some(Sub(map["src" := Attr(s, "src").value]));
    }
  }

  /** An item after fillOutItem. */
  function Fill(value: ItemMap, fieldName: string, s: Selection): ItemMap
  {
    match Filled(s)
    case None => value
    case Some(v) => value[fieldName := v]
  }

  /** outItem, as the value a payload's output holds. */
  datatype OutItemValue = OutItemValue(name: string, url: string, fields: seq<string>, items: seq<ItemMap>,
                                       count: nat, createdAt: int)

  /** outItem while parseItem fills it. */
  class OutItem {
    var name: string
    var url: string
    var fields: seq<string>
    var items: seq<ItemMap>
    var count: nat
    var createdAt: int

    constructor (name: string, url: string)
      ensures this.name == name && this.url == url && fields == [] && items == [] && count == 0 && createdAt == 0
    {
      this.name := name;
      this.url := url;
      fields := [];
      items := [];
      count := 0;
      createdAt := 0;
    }

    function Value(): OutItemValue
      reads this
    {
      OutItemValue(name, url, fields, items, count, createdAt)
    }

    /** genAttrFieldName: appends the field's columns. */
    method GenAttrFieldName(fieldName: string, sel: Selection)
      modifies this
      ensures fields == old(fields) + AttrFieldNames(fieldName, sel)
      ensures name == old(name) && url == old(url) && items == old(items)
      ensures count == old(count) && createdAt == old(createdAt)
    {
      if Attr(sel, "href").Some? {
        fields := fields + [fieldName + "_text", fieldName + "_href"];
      } else if Attr(sel, "src").Some? {
        fields := fields + [fieldName + "_src", fieldName + "_alt"];
      } else {
        fields := fields + [fieldName];
      }
    }
  }

  /** parser.item: the map one block fills. */
  class Item {
    var value: ItemMap

    constructor ()
      ensures value == map[]
    {
      value := map[];
    }

    /** fillOutItem */
    method FillOutItem(fieldName: string, s: Selection)
      modifies this
      ensures value == Fill(old(value), fieldName, s)
    {
      ItemKeysDistinct();
      if |s.nodes| > 0 && s.nodes[0].isElement {
        var nodeType := s.nodes[0].data;
        if nodeType == "a" {
          var href := Attr(s, "href");
          if href.Some? {
            var m := map["href" := href.value, "text" := TrimSpace(Text(s.nodes))];
            var title := Attr(s, "title");
            if title.Some? {
              m := m["title" := TrimSpace(title.value)];
            }
            assert Filled(s) == Some(Sub(m));
            value := value[fieldName := Sub(m)];
          }
        } else if nodeType == "img" {
          var src := Attr(s, "src");
          if src.Some? {
            var m := map["src" := src.value];
            var alt := Attr(s, "alt");
            if alt.Some? {
              m := m["alt" := TrimSpace(alt.value)];
            }
            assert Filled(s) == Some(Sub(m));
            value := value[fieldName := Sub(m)];
          }
        } else {
          value := value[fieldName := Str(TrimSpace(Text(s.nodes)))];
        }
      }
    }
  }

  /** The columns named after a link are filled from the link's item:
      `<n>_text` and `<n>_href` are `<n>` joined with keys of its map. */
  lemma LinkColumnsMatchFill(fieldName: string, s: Selection)
    requires |s.nodes| > 0 && s.nodes[0].isElement && s.nodes[0].data == "a" && Attr(s, "href").Some?
    ensures AttrFieldNames(fieldName, s) == [fieldName + "_" + "text", fieldName + "_" + "href"]
    ensures Filled(s).Some? && Filled(s).value.Sub?
    ensures "text" in Filled(s).value.m && "href" in Filled(s).value.m
  {
    FilledLink(s);
    assert fieldName + "_text" == fieldName + "_" + "text";
    assert fieldName + "_href" == fieldName + "_" + "href";
  }

  /** The columns named after an image: `<n>_src` is always filled, and
      `<n>_alt` exactly when the image has an alt text. */
  lemma ImageColumnsMatchFill(fieldName: string, s: Selection)
    requires |s.nodes| > 0 && s.nodes[0].isElement && s.nodes[0].data == "img"
    requires Attr(s, "src").Some? && Attr(s, "href").None?
    ensures AttrFieldNames(fieldName, s) == [fieldName + "_" + "src", fieldName + "_" + "alt"]
    ensures Filled(s).Some? && Filled(s).value.Sub? && "src" in Filled(s).value.m
    ensures "alt" in Filled(s).value.m <==> Attr(s, "alt").Some?
  {
    FilledImage(s);
    assert fieldName + "_src" == fieldName + "_" + "src";
    assert fieldName + "_alt" == fieldName + "_" + "alt";
  }

  // ---------------------------------------------------------------------
  // parseItem

  /** The columns of a collection: each field's columns, in field order. */
  function FieldColumns(dom: Dom, doc: Selection, fields: seq<Field>): seq<string>
  {
    if fields == [] then []
    else
      var f := fields[|fields| - 1];
      FieldColumns(dom, doc, fields[..|fields| - 1]) + AttrFieldNames(f.fieldName, dom.find(doc, f.cssSelector))
  }

  /** The common ancestors of every field's matches. */
  function IntersectionOf(dom: Dom, doc: Selection, fields: seq<Field>): Selection
    requires |fields| > 0
  {
    var p := dom.parents(dom.find(doc, fields[|fields| - 1].cssSelector));
    if |fields| == 1 then p else dom.intersection(IntersectionOf(dom, doc, fields[..|fields| - 1]), p)
  }

  /** The container selector `parent>intersection`; None when either
      attrOrDataValue panics. */
  function ContainerSelector(dom: Dom, inter: Selection): (r: Option<string>)
    ensures r.Some? <==> |dom.parent(inter).nodes| > 0 && |inter.nodes| > 0
    ensures r.Some? ==> r.value == AttrOrDataValue(dom.parent(inter)).value + ">" + AttrOrDataValue(inter).value
  {
    match AttrOrDataValue(dom.parent(inter))
    case None => None
    case Some(a) =>
      match AttrOrDataValue(inter)
      case None => None
      case Some(b) => Some(a + ">" + b)
  }

  /** The blocks: the children of a single match, or the matches when there
      are several; no match leaves the selection nil, and using it panics. */
  function BlockSelection(dom: Dom, items: Selection): Option<Selection>
  {
    if |items.nodes| == 1 then Some(dom.children(items))
    else if |items.nodes| > 1 then Some(items)
    else None
  }

  /** The item one block fills: every field, in order, whose selector
      matches inside the block. */
  function ItemOf(dom: Dom, node: Node, fields: seq<Field>): ItemMap
  {
    if fields == [] then map[]
    else
      var f := fields[|fields| - 1];
      var filtered := dom.find(Selection([node]), f.cssSelector);
      var m := ItemOf(dom, node, fields[..|fields| - 1]);
      if |filtered.nodes| >= 1 then Fill(m, f.fieldName, filtered) else m
  }

  /** The non-empty items of the blocks, in block order. */
  function ItemsOf(dom: Dom, nodes: seq<Node>, fields: seq<Field>): seq<ItemMap>
  {
    if nodes == [] then []
    else
      var m := ItemOf(dom, nodes[|nodes| - 1], fields);
      ItemsOf(dom, nodes[..|nodes| - 1], fields) + (if |m| > 0 then [m] else [])
  }

  /** What parseItem leaves in its outItem, and its error. */
  datatype ItemOutcome = ItemOutcome(fields: seq<string>, items: seq<ItemMap>, err: Option<ParseItemError>)

  function ParseItemSpec(c: Collection, h: Bytes, dom: Dom): ItemOutcome
  {
    if c.url == "" then ItemOutcome([], [], Some(EmptyURL))
    else if |c.fields| == 0 then ItemOutcome([], [], Some(NoSelectors))
    else
      match dom.parse(h)
      case Err(e) => ItemOutcome([], [], Some(HTMLError(e)))
      case Ok(doc) =>
        var cols := FieldColumns(dom, doc, c.fields);
        var inter := IntersectionOf(dom, doc, c.fields);
        if |inter.nodes| == 0 then ItemOutcome(cols, [], Some(NoSelectors))
        else
          match ContainerSelector(dom, inter)
          case None => ItemOutcome(cols, [], Some(Panic))
          case Some(sel) =>
            match BlockSelection(dom, dom.find(doc, sel))
            case None => ItemOutcome(cols, [], Some(Panic))
            case Some(blocks) => ItemOutcome(cols, ItemsOf(dom, blocks.nodes, c.fields), None)
  }

  /** The loop over the fields in parseItem: each field's matches' common
      ancestors narrow the intersection, and its columns are appended. */
  method ScanFields(o: OutItem, doc: Selection, fields: seq<Field>, dom: Dom) returns (intersection: Selection)
    requires |fields| > 0 && o.fields == []
    modifies o
    ensures intersection == IntersectionOf(dom, doc, fields)
    ensures o.fields == FieldColumns(dom, doc, fields)
    ensures o.name == old(o.name) && o.url == old(o.url) && o.items == old(o.items)
    ensures o.count == old(o.count) && o.createdAt == old(o.createdAt)
  {
    intersection := Selection([]);
    for i := 0 to |fields|
      invariant o.name == old(o.name) && o.url == old(o.url) && o.items == old(o.items)
      invariant o.count == old(o.count) && o.createdAt == old(o.createdAt)
      invariant o.fields == FieldColumns(dom, doc, fields[..i])
      invariant i > 0 ==> intersection == IntersectionOf(dom, doc, fields[..i])
    {
      assert fields[..i + 1][..i] == fields[..i];
      var f := fields[i];
      var parents := dom.parents(dom.find(doc, f.cssSelector));
      if i == 0 {
        intersection := parents;
      } else {
        intersection := dom.intersection(intersection, parents);
      }
      var sel := dom.find(doc, f.cssSelector);
      o.GenAttrFieldName(f.fieldName, sel);
    }
    assert fields[..|fields|] == fields;
  }

  /** inters.Each in parseItem: one item per block, kept when non-empty. */
  method FillItems(o: OutItem, nodes: seq<Node>, fields: seq<Field>, dom: Dom)
    requires o.items == []
    modifies o
    ensures o.items == ItemsOf(dom, nodes, fields)
    ensures o.name == old(o.name) && o.url == old(o.url) && o.fields == old(o.fields)
    ensures o.count == old(o.count) && o.createdAt == old(o.createdAt)
  {
    for b := 0 to |nodes|
      invariant o.name == old(o.name) && o.url == old(o.url) && o.fields == old(o.fields)
      invariant o.count == old(o.count) && o.createdAt == old(o.createdAt)
      invariant o.items == ItemsOf(dom, nodes[..b], fields)
    {
      assert nodes[..b + 1][..b] == nodes[..b];
      var value := FillItem(nodes[b], fields, dom);
      if |value| > 0 {
        o.items := o.items + [value];
      }
    }
    assert nodes[..|nodes|] == nodes;
  }

  /** The fields loop inside one block: fillOutItem for every field whose
      selector matches inside it. */
  method FillItem(s: Node, fields: seq<Field>, dom: Dom) returns (value: ItemMap)
    ensures value == ItemOf(dom, s, fields)
  {
    var itm := new Item();
    for j := 0 to |fields|
      invariant itm.value == ItemOf(dom, s, fields[..j])
    {
      assert fields[..j + 1][..j] == fields[..j];
      var field := fields[j];
      var filtered := dom.find(Selection([s]), field.cssSelector);
      if |filtered.nodes| >= 1 {
        itm.FillOutItem(field.fieldName, filtered);
      }
    }
    assert fields[..|fields|] == fields;
    value := itm.value;
  }

  /** parseItem; the clock reading is a parameter. */
  method ParseItem(c: Collection, h: Bytes, dom: Dom, now: int) returns (o: OutItem, err: Option<ParseItemError>)
    ensures fresh(o) && o.name == c.name && o.url == c.url
    ensures ItemOutcome(o.fields, o.items, err) == ParseItemSpec(c, h, dom)
    ensures err.None? ==> o.count == |o.items| && o.createdAt == now
    ensures err.Some? ==> o.count == 0 && o.createdAt == 0
  {
    o := new OutItem(c.name, c.url);
    if c.url == "" {
      return o, Some(EmptyURL);
    }
    if |c.fields| == 0 {
      return o, Some(NoSelectors);
    }
    var node := dom.parse(h);
    if node.Err? {
      return o, Some(HTMLError(node.error));
    }
    var doc := node.value;
    var intersection := ScanFields(o, doc, c.fields, dom);
    if |intersection.nodes| == 0 {
      return o, Some(NoSelectors);
    }
    var parentValue := AttrOrDataValue(dom.parent(intersection));
    var interValue := AttrOrDataValue(intersection);
    if parentValue.None? || interValue.None? {
      return o, Some(Panic);
    }
    var intersectionWithParent := parentValue.value + ">" + interValue.value;
    var items := dom.find(doc, intersectionWithParent);
    var inters: Selection;
    if |items.nodes| == 1 {
      inters := dom.children(items);
    } else if |items.nodes| > 1 {
      inters := items;
    } else {
      return o, Some(Panic);
    }
    FillItems(o, inters.nodes, c.fields, dom);
    o.count := |o.items|;
    o.createdAt := now;
    err := None;
  }

  /** The error cases of parseItem: an empty URL, no fields, or no common
      ancestor; and on success the items are those of the blocks the
      container rule picks: the children of a single match of
      `parent>intersection`, or all the matches when there are several. */
  lemma ParseItemOutcome(c: Collection, h: Bytes, dom: Dom)
    ensures c.url == "" ==> ParseItemSpec(c, h, dom).err == Some(EmptyURL)
    ensures c.url != "" && |c.fields| == 0 ==> ParseItemSpec(c, h, dom).err == Some(NoSelectors)
    ensures c.url != "" && |c.fields| > 0 && dom.parse(h).Ok? && |IntersectionOf(dom, dom.parse(h).value, c.fields).nodes| == 0 ==>
              ParseItemSpec(c, h, dom).err == Some(NoSelectors)
    ensures ParseItemSpec(c, h, dom).err.None? ==>
              c.url != "" && |c.fields| > 0 && dom.parse(h).Ok?
              && var doc := dom.parse(h).value;
                 var inter := IntersectionOf(dom, doc, c.fields);
                 var matches := dom.find(doc, AttrOrDataValue(dom.parent(inter)).value + ">" + AttrOrDataValue(inter).value);
                 |inter.nodes| > 0 && |dom.parent(inter).nodes| > 0
                 && (|matches.nodes| == 1 ==> ParseItemSpec(c, h, dom).items == ItemsOf(dom, dom.children(matches).nodes, c.fields))
                 && (|matches.nodes| > 1 ==> ParseItemSpec(c, h, dom).items == ItemsOf(dom, matches.nodes, c.fields))
                 && |matches.nodes| > 0
  {
  }

  /** The items of the blocks are their non-empty fillings, in block order. */
  lemma {:induction false} ItemsOfMeaning(dom: Dom, nodes: seq<Node>, fields: seq<Field>)
    ensures ItemsOf(dom, nodes, fields) == Filter(seq(|nodes|, i requires 0 <= i < |nodes| => ItemOf(dom, nodes[i], fields)), NonEmptyItem)
  {
    if nodes != [] {
      var init := nodes[..|nodes| - 1];
      ItemsOfMeaning(dom, init, fields);
      var all := seq(|nodes|, i requires 0 <= i < |nodes| => ItemOf(dom, nodes[i], fields));
      var front := seq(|init|, i requires 0 <= i < |init| => ItemOf(dom, init[i], fields));
      var last := ItemOf(dom, nodes[|nodes| - 1], fields);
      forall i | 0 <= i < |nodes|
        ensures all[i] == (front + [last])[i]
      {
        if i < |init| {
          assert nodes[i] == init[i];
        }
      }
      assert all == front + [last];
      FilterAppend(front, last, NonEmptyItem);
    }
  }

  predicate NonEmptyItem(m: ItemMap)
  {
    |m| > 0
  }

  /** Every key of an item is the name of a field whose selector matched
      inside the block. */
  lemma {:induction false} ItemKeys(dom: Dom, node: Node, fields: seq<Field>)
    ensures forall k :: k in ItemOf(dom, node, fields) ==>
              exists i :: 0 <= i < |fields| && fields[i].fieldName == k
                          && |dom.find(Selection([node]), fields[i].cssSelector).nodes| >= 1
  {
    if fields != [] {
      var init := fields[..|fields| - 1];
      ItemKeys(dom, node, init);
      forall k | k in ItemOf(dom, node, fields)
        ensures exists i :: 0 <= i < |fields| && fields[i].fieldName == k
                            && |dom.find(Selection([node]), fields[i].cssSelector).nodes| >= 1
      {
        if k in ItemOf(dom, node, init) {
          var i :| 0 <= i < |init| && init[i].fieldName == k
                   && |dom.find(Selection([node]), init[i].cssSelector).nodes| >= 1;
          assert fields[i] == init[i];
        } else {
          assert fields[|fields| - 1].fieldName == k;
        }
      }
    }
  }

  // ---------------------------------------------------------------------
  // Payloads.Parse

  /** The outItem of one collection. */
  function OutItemOf(c: Collection, h: Bytes, dom: Dom, now: int): OutItemValue
  {
    var r := ParseItemSpec(c, h, dom);
    OutItemValue(c.name, c.url, r.fields, r.items, if r.err.None? then |r.items| else 0, if r.err.None? then now else 0)
  }

  /** Why Payloads.Parse stops: a page that GetHTML could not fetch, or a
      panic inside parseItem, which unwinds out of Parse. */
  datatype ParseStop = FetchFailed(msg: string) | ItemPanicked

  /** The elements of Payloads.Parse's output and how it stops: one element
      per collection in order, a parseItem error only reported, and the
      first GetHTML error or parseItem panic ending the loop. */
  function ParseOut(cols: seq<Collection>, getHTML: string -> Result<Bytes, string>, dom: Dom, now: int)
    : (seq<OutItemValue>, Option<ParseStop>)
  {
    if cols == [] then ([], None)
    else
      var (out, err) := ParseOut(cols[..|cols| - 1], getHTML, dom, now);
      if err.Some? then (out, err)
      else
        var c := cols[|cols| - 1];
        match getHTML(c.url)
        case Err(e) => (out, Some(FetchFailed(e)))
        case Ok(h) =>
          if ParseItemSpec(c, h, dom).err == Some(Panic) then (out, Some(ItemPanicked))
          else (out + [OutItemOf(c, h, dom, now)], None)
  }

  /** Payloads.Parse */
  method Parse(p: Payloads, getHTML: string -> Result<Bytes, string>, dom: Dom, now: int)
    returns (out: seq<OutItemValue>, err: Option<ParseStop>)
    ensures (out, err) == ParseOut(p.collections, getHTML, dom, now)
  {
    out := [];
    for i := 0 to |p.collections|
      invariant ParseOut(p.collections[..i], getHTML, dom, now) == (out, None)
    {
      assert p.collections[..i + 1][..i] == p.collections[..i];
      var collection := p.collections[i];
      var content := getHTML(collection.url);
      if content.Err? {
        ParseOutStops(p.collections, getHTML, dom, now, i + 1);
        return out, Some(FetchFailed(content.error));
      }
      var outItem, itemErr := ParseItem(collection, content.value, dom, now);
      if itemErr == Some(Panic) {
        ParseOutStops(p.collections, getHTML, dom, now, i + 1);
        return out, Some(ItemPanicked);
      }
      assert outItem.Value() == OutItemOf(collection, content.value, dom, now);
      out := out + [outItem.Value()];
    }
    assert p.collections[..|p.collections|] == p.collections;
    err := None;
  }

  lemma {:induction false} ParseOutStops(cols: seq<Collection>, getHTML: string -> Result<Bytes, string>, dom: Dom, now: int, k: nat)
    requires k <= |cols| && ParseOut(cols[..k], getHTML, dom, now).1.Some?
    ensures ParseOut(cols, getHTML, dom, now) == ParseOut(cols[..k], getHTML, dom, now)
    decreases |cols| - k
  {
    if k < |cols| {
      assert cols[..k + 1][..k] == cols[..k];
      ParseOutStops(cols, getHTML, dom, now, k + 1);
    } else {
      assert cols[..k] == cols;
    }
  }

  /** Whether collection c gets through Payloads.Parse: its page is
      fetched and parseItem does not panic on it. */
  predicate Passes(c: Collection, getHTML: string -> Result<Bytes, string>, dom: Dom)
  {
    getHTML(c.url).Ok? && ParseItemSpec(c, getHTML(c.url).value, dom).err != Some(Panic)
  }

  /** Parse runs to the end exactly when every collection passes, and then
      has one element per collection, in order, whatever non-panic error
      parseItem reported. Otherwise the elements are those of the
      collections before the first that does not pass, and the stop says
      why that one failed: its GetHTML error, or a parseItem panic. */
  lemma {:induction false} ParseOutMeaning(cols: seq<Collection>, getHTML: string -> Result<Bytes, string>, dom: Dom, now: int)
    ensures var (out, err) := ParseOut(cols, getHTML, dom, now);
      (err.None? <==> forall i :: 0 <= i < |cols| ==> Passes(cols[i], getHTML, dom))
      && (err.None? ==> |out| == |cols|)
      && (err.Some? ==> |out| < |cols| && !Passes(cols[|out|], getHTML, dom)
                        && (err.value.FetchFailed? <==> getHTML(cols[|out|].url).Err?)
                        && (err.value.FetchFailed? ==> getHTML(cols[|out|].url) == Err(err.value.msg)))
      && (forall i :: 0 <= i < |out| ==>
            (Passes(cols[i], getHTML, dom) && out[i] == OutItemOf(cols[i], getHTML(cols[i].url).value, dom, now)))
  {
    ParseOutElements(cols, getHTML, dom, now);
    ParseOutEnd(cols, getHTML, dom, now);
  }

  /** Parse emits at most one element per collection, and one for each when
      it runs to the end. */
  lemma {:induction false} ParseOutLength(cols: seq<Collection>, getHTML: string -> Result<Bytes, string>, dom: Dom, now: int)
    ensures var (out, err) := ParseOut(cols, getHTML, dom, now);
      |out| <= |cols| && (err.None? ==> |out| == |cols|)
  {
    if cols != [] {
      ParseOutLength(cols[..|cols| - 1], getHTML, dom, now);
    }
  }

  /** The elements Parse emits are those of passing collections, in order. */
  lemma {:induction false} ParseOutElements(cols: seq<Collection>, getHTML: string -> Result<Bytes, string>, dom: Dom, now: int)
    ensures var out := ParseOut(cols, getHTML, dom, now).0;
      forall i :: 0 <= i < |out| ==>
           i < |cols| && Passes(cols[i], getHTML, dom) && out[i] == OutItemOf(cols[i], getHTML(cols[i].url).value, dom, now)
  {
    if cols != [] {
      var init := cols[..|cols| - 1];
      ParseOutElements(init, getHTML, dom, now);
      ParseOutLength(init, getHTML, dom, now);
      var (out0, err0) := ParseOut(init, getHTML, dom, now);
      var out := ParseOut(cols, getHTML, dom, now).0;
      if out != out0 {
        var c := cols[|cols| - 1];
        var h := getHTML(c.url).value;
        assert err0.None? && Passes(c, getHTML, dom) && out == out0 + [OutItemOf(c, h, dom, now)];
        assert |out0| == |init| && cols[|out0|] == c;
      }
      forall i | 0 <= i < |out|
        ensures i < |cols| && Passes(cols[i], getHTML, dom) && out[i] == OutItemOf(cols[i], getHTML(cols[i].url).value, dom, now)
      {
        if i < |out0| {
          assert out[i] == out0[i] && cols[i] == init[i];
        }
      }
    }
  }

  /** How Parse ends: completely exactly when every collection passes, and
      otherwise at the first collection that does not, saying why. */
  lemma {:induction false} ParseOutEnd(cols: seq<Collection>, getHTML: string -> Result<Bytes, string>, dom: Dom, now: int)
    ensures var (out, err) := ParseOut(cols, getHTML, dom, now);
      (err.None? <==> forall i :: 0 <= i < |cols| ==> Passes(cols[i], getHTML, dom))
      && (err.None? ==> |out| == |cols|)
      && (err.Some? ==> |out| < |cols| && !Passes(cols[|out|], getHTML, dom)
                        && (err.value.FetchFailed? <==> getHTML(cols[|out|].url).Err?)
                        && (err.value.FetchFailed? ==> getHTML(cols[|out|].url) == Err(err.value.msg)))
  {
    if cols != [] {
      var init := cols[..|cols| - 1];
      ParseOutEnd(init, getHTML, dom, now);
      ParseOutLength(init, getHTML, dom, now);
      assert forall i :: 0 <= i < |init| ==> init[i] == cols[i];
    }
  }

  // ---------------------------------------------------------------------
  // generateTable

  /** What an item's entry under key k contributes to column f: a scalar
      under k == f, or a sub-value under k1 with `k_k1` == f. */
  function Contribution(k: string, v: ItemValue, f: string): set<string>
  {
    match v
    case Str(s) => if k == f then {s} else {}
    case Sub(m) => set k1 | k1 in m && k + "_" + k1 == f :: m[k1]
  }

  /** The values of the keys in `done` that match column f. */
  function MatchesIn(item: ItemMap, done: set<string>, f: string): set<string>
  {
    set k, x | k in done && k in item && x in Contribution(k, item[k], f) :: x
  }

  /** Every value of an item that matches column f. */
  function Matches(item: ItemMap, f: string): set<string>
  {
    MatchesIn(item, item.Keys, f)
  }

  lemma MatchesInAdd(item: ItemMap, done: set<string>, k: string, f: string)
    requires k in item
    ensures MatchesIn(item, done + {k}, f) == MatchesIn(item, done, f) + Contribution(k, item[k], f)
  {
    forall x | x in Contribution(k, item[k], f)
      ensures x in MatchesIn(item, done + {k}, f)
    {
      assert k in done + {k} && k in item && x in Contribution(k, item[k], f);
    }
  }

  /** The values of the sub-keys in `done` of a map under key k that match
      column f. */
  function SubMatches(k: string, m: map<string, string>, done: set<string>, f: string): set<string>
  {
    set k1 | k1 in done && k1 in m && k + "_" + k1 == f :: m[k1]
  }

  /** A cell of the table is "" when nothing of the item matches its
      column, and otherwise one of the matching values; which one, when
      several match, depends on Go's map iteration order. */
  predicate CellOf(cell: string, item: ItemMap, f: string)
  {
    (Matches(item, f) == {} ==> cell == "") && (Matches(item, f) != {} ==> cell in Matches(item, f))
  }

  /** stringInSlice: membership. */
  function StringInSlice(a: string, list: seq<string>): (r: bool)
    ensures r <==> a in list
  {
    if list == [] then false else list[0] == a || StringInSlice(a, list[1..])
  }

  lemma SubMatchesAdd(k: string, m: map<string, string>, done: set<string>, k1: string, f: string)
    requires k1 in m
    ensures SubMatches(k, m, done + {k1}, f) == SubMatches(k, m, done, f) + (if k + "_" + k1 == f then {m[k1]} else {})
  {
    if k + "_" + k1 == f {
      assert m[k1] in SubMatches(k, m, done + {k1}, f);
    }
  }

  /** The sub-keys loop of generateTable for a map under key k: every
      sub-key joining k to column f writes its value into the column's
      cell and records the column name. */
  method MatchSub(cells: array<string>, i: nat, k: string, m: map<string, string>, f: string, keys: seq<string>)
    returns (keys': seq<string>)
    requires i < cells.Length
    modifies cells
    ensures forall j :: 0 <= j < cells.Length && j != i ==> cells[j] == old(cells[j])
    ensures forall g :: g in keys ==> g in keys'
    ensures SubMatches(k, m, m.Keys, f) == {} ==> cells[i] == old(cells[i])
    ensures SubMatches(k, m, m.Keys, f) != {} ==> cells[i] in SubMatches(k, m, m.Keys, f) && f in keys'
  {
    keys' := keys;
    ghost var done: set<string> := {};
    var rest := m.Keys;
    while rest != {}
      invariant done + rest == m.Keys && done !! rest
      invariant forall j :: 0 <= j < cells.Length && j != i ==> cells[j] == old(cells[j])
      invariant forall g :: g in keys ==> g in keys'
      invariant SubMatches(k, m, done, f) == {} ==> cells[i] == old(cells[i])
      invariant SubMatches(k, m, done, f) != {} ==> cells[i] in SubMatches(k, m, done, f) && f in keys'
      decreases rest
    {
      var k1 :| k1 in rest;
      var joinedFieldName := k + "_" + k1;
      if joinedFieldName == f {
        cells[i] := m[k1];
        keys' := keys' + [joinedFieldName];
      }
      SubMatchesAdd(k, m, done, k1, f);
      done := done + {k1};
      rest := rest - {k1};
    }
  }

  /** The keys loop of generateTable for column f: every key of the item,
      in map order, writes what it contributes to the column's cell. */
  method MatchColumn(cells: array<string>, i: nat, f: string, item: ItemMap, keys: seq<string>)
    returns (keys': seq<string>)
    requires i < cells.Length && cells[i] == ""
    modifies cells
    ensures forall j :: 0 <= j < cells.Length && j != i ==> cells[j] == old(cells[j])
    ensures forall g :: g in keys ==> g in keys'
    ensures CellOf(cells[i], item, f)
    ensures Matches(item, f) != {} ==> f in keys'
  {
    keys' := keys;
    ghost var done: set<string> := {};
    var rest := item.Keys;
    while rest != {}
      invariant done + rest == item.Keys && done !! rest
      invariant forall j :: 0 <= j < cells.Length && j != i ==> cells[j] == old(cells[j])
      invariant forall g :: g in keys ==> g in keys'
      invariant MatchesIn(item, done, f) == {} ==> cells[i] == ""
      invariant MatchesIn(item, done, f) != {} ==> cells[i] in MatchesIn(item, done, f) && f in keys'
      decreases rest
    {
      var k :| k in rest;
      MatchesInAdd(item, done, k, f);
      match item[k] {
        case Sub(m) =>
          keys' := MatchSub(cells, i, k, m, f, keys');
          assert SubMatches(k, m, m.Keys, f) == Contribution(k, item[k], f);
        case Str(s) =>
          if k == f {
            cells[i] := s;
            keys' := keys' + [k];
          }
      }
      done := done + {k};
      rest := rest - {k};
    }
    assert MatchesIn(item, done, f) == Matches(item, f);
  }

  /** One row of generateTable: each column's cell from the item's keys,
      then the columns no key matched cleared. */
  method GenerateRow(fields: seq<string>, item: ItemMap) returns (row: seq<string>)
    ensures |row| == |fields|
    ensures forall i :: 0 <= i < |fields| ==> CellOf(row[i], item, fields[i])
  {
    var cells := new string[|fields|](_ => "");
    var keys: seq<string> := [];
    for i := 0 to |fields|
      invariant forall j :: 0 <= j < i ==> CellOf(cells[j], item, fields[j])
      invariant forall j :: 0 <= j < i && Matches(item, fields[j]) != {} ==> fields[j] in keys
      invariant forall j :: i <= j < |fields| ==> cells[j] == ""
    {
      keys := MatchColumn(cells, i, fields[i], item, keys);
    }
    for i := 0 to |fields|
      invariant forall j :: 0 <= j < |fields| ==> CellOf(cells[j], item, fields[j])
    {
      if !StringInSlice(fields[i], keys) {
        cells[i] := "";
      }
    }
    row := cells[..];
  }

  /** generateTable: the columns as the first row, then one row per item,
      each with one cell per column. */
  method GenerateTable(o: OutItemValue) returns (buf: seq<seq<string>>)
    ensures |buf| == |o.items| + 1 && buf[0] == o.fields
    ensures forall r :: 1 <= r < |buf| ==> |buf[r]| == |o.fields|
    ensures forall r, i :: 1 <= r < |buf| && 0 <= i < |o.fields| ==> CellOf(buf[r][i], o.items[r - 1], o.fields[i])
  {
    buf := [o.fields];
    for r := 0 to |o.items|
      invariant |buf| == r + 1 && buf[0] == o.fields
      invariant forall q :: 1 <= q < |buf| ==> |buf[q]| == |o.fields|
      invariant forall q, i :: 1 <= q < |buf| && 0 <= i < |o.fields| ==> CellOf(buf[q][i], o.items[q - 1], o.fields[i])
    {
      var row := GenerateRow(o.fields, o.items[r]);
      buf := buf + [row];
    }
  }

  /** A column matched by exactly one value of the item shows that value:
      in particular a link's href under `<n>_href` when nothing else of
      the item joins to that name. */
  lemma SingleMatchCell(cell: string, item: ItemMap, f: string, v: string)
    requires CellOf(cell, item, f) && Matches(item, f) == {v}
    ensures cell == v
  {
  }

  /** A link filled under a field name shows its href in that field's
      `_href` column, among the values that match it. */
  lemma LinkHrefMatches(item: ItemMap, fieldName: string)
    requires fieldName in item && item[fieldName].Sub? && "href" in item[fieldName].m
    ensures item[fieldName].m["href"] in Matches(item, fieldName + "_href")
  {
    var m := item[fieldName].m;
    assert fieldName + "_" + "href" == fieldName + "_href";
    assert m["href"] in Contribution(fieldName, item[fieldName], fieldName + "_href");
  }

  // ---------------------------------------------------------------------
  // Slice utilities

  /** InsertStringToSlice on the backing array of a slice of length `len`:
      the slice grows by one, the value lands at `index`, the prefix stays
      and the tail moves one place right. */
  method InsertStringToSlice(slice: array<string>, len: nat, index: nat, value: string) returns (newLen: nat)
    requires index <= len < slice.Length
    modifies slice
    ensures newLen == len + 1
    ensures slice[..newLen] == old(slice[..index]) + [value] + old(slice[index..len])
    ensures slice[newLen..] == old(slice[newLen..])
  {
    newLen := len + 1;
    var j := len;
    while j > index
      invariant index <= j <= len
      invariant slice[..j] == old(slice[..j])
      invariant forall t :: j < t <= len ==> slice[t] == old(slice[t - 1])
      invariant slice[newLen..] == old(slice[newLen..])
      decreases j
    {
      slice[j] := slice[j - 1];
      j := j - 1;
    }
    slice[index] := value;
    assert slice[..newLen] == old(slice[..index]) + [value] + old(slice[index..len]) by {
      forall t | 0 <= t < newLen
        ensures slice[t] == (old(slice[..index]) + [value] + old(slice[index..len]))[t]
      {
        if t > index {
          assert slice[t] == old(slice[t - 1]);
        }
      }
    }
  }

  /** addStringSliceToSlice: the slice its loop builds from `out` by adding
      the strings of `in` it does not yet hold. Go passes the slice header
      by value and the function returns nothing, so the caller's slice
      never sees these additions. */
  method AddStringSliceToSlice(input: seq<string>, out: seq<string>) returns (local: seq<string>)
    ensures |local| >= |out| && local[..|out|] == out
    ensures forall s :: s in input ==> s in local
    ensures forall i :: |out| <= i < |local| ==> local[i] in input && local[i] !in out
    ensures forall i, j :: |out| <= i < j < |local| ==> local[i] != local[j]
  {
    local := out;
    for k := 0 to |input|
      invariant |local| >= |out| && local[..|out|] == out
      invariant forall s :: s in input[..k] ==> s in local
      invariant forall i :: |out| <= i < |local| ==> local[i] in input && local[i] !in out
      invariant forall i, j :: |out| <= i < j < |local| ==> local[i] != local[j]
    {
      var s := input[k];
      if !StringInSlice(s, local) {
        local := local + [s];
      }
    }
    assert input[..|input|] == input;
  }

  // ---------------------------------------------------------------------
  // MarshalData

  /** The oracles MarshalData uses besides Redis and the parser's own. */
  datatype MarshalEnv = MarshalEnv(
    unmarshal: Bytes -> Result<Payloads, string>,          // Payloads.UnmarshalJSON
    md5: Bytes -> string,                                  // generateMD5
    getHTML: string -> Result<Bytes, string>,
    dom: Dom,
    marshal: (string, seq<OutItemValue>) -> Result<Bytes, string>,  // Out.MarshalXML / CSV / JSON
    setReply: (string, Bytes) -> Result<string, string>,  // the reply of Redis's SET
    expire: nat,                                           // redis.expire
    errRedisDown: string)

  /** The output format: json when none is given. */
  function FormatOf(p: Payloads): (f: string)
    ensures f != "" && (p.format != "" ==> f == p.format)
  {
    if p.format == "" then "json" else p.format
  }

  /** The cache key: `<format>-<md5 of the payload>`. */
  function OutKey(p: Payloads, payload: Bytes, env: MarshalEnv): (k: string)
    ensures |k| > |FormatOf(p)| && k[..|FormatOf(p)|] == FormatOf(p) && k[|FormatOf(p)|] == '-'
  {
    FormatOf(p) + "-" + env.md5(payload)
  }

  /** The marshaller the format picks: xml, csv, and json for anything
      else. */
  function MarshalKind(format: string): (k: string)
    ensures k in {"xml", "csv", "json"}
    ensures format == "xml" || format == "csv" ==> k == format
  {
    if format == "xml" then "xml" else if format == "csv" then "csv" else "json"
  }

  /** How MarshalData fails: an error it returns, or a panic of parseItem
      that unwinds through it, leaving no answer. */
  datatype MarshalError = Failure(msg: string) | Panicked

  /** The answer of MarshalData and the Redis state afterwards. */
  function MarshalOutcome(s: Caching.CacheState, payload: Bytes, dialErr: Option<string>, env: MarshalEnv, now: int)
    : (Result<Bytes, MarshalError>, Caching.CacheState)
  {
    if dialErr.Some? then (Err(Failure(env.errRedisDown + ": " + dialErr.value)), s)
    else
      match env.unmarshal(payload)
      case Err(e) => (Err(Failure(e)), s)
      case Ok(p) =>
        var key := OutKey(p, payload, env);
        if key in s.values then (Ok(s.values[key]), s)
        else
          var (out, err) := ParseOut(p.collections, env.getHTML, env.dom, now);
          if err == Some(ItemPanicked) then (Err(Panicked), s)
          else if err.Some? then (Err(Failure(err.value.msg)), s)
          else
            match env.marshal(MarshalKind(FormatOf(p)), out)
            case Err(e) => (Err(Failure(e)), s)
            case Ok(b) =>
              match env.setReply(key, b)
              case Err(e) => (Err(Failure(e)), s)
              case Ok(reply) =>
                var values := s.values[key := b];
                if reply == "OK" then (Ok(b), Caching.CacheState(values, s.expiry[key := Caching.ExpireIn(env.expire)]))
                else (Ok(b), Caching.CacheState(values, s.expiry))
  }

  /** MarshalData; whether redis.Dial failed is a parameter. */
  method MarshalData(payload: Bytes, conn: Caching.RedisConn, dialErr: Option<string>, env: MarshalEnv, now: int)
    returns (r: Result<Bytes, MarshalError>)
    modifies conn
    ensures (r, conn.State()) == MarshalOutcome(old(conn.State()), payload, dialErr, env, now)
  {
    if dialErr.Some? {
      return Err(Failure(env.errRedisDown + ": " + dialErr.value));
    }
    var p := env.unmarshal(payload);
    if p.Err? {
      return Err(Failure(p.error));
    }
    var payloads := p.value;
    if payloads.format == "" {
      payloads := payloads.(format := "json");
    }
    var outRediskey := payloads.format + "-" + env.md5(payload);
    assert outRediskey == OutKey(p.value, payload, env);
    var outRedis := conn.GetValue(outRediskey);
    if outRedis.Some? {
      return Ok(outRedis.value);
    }
    var out, err := Parse(payloads, env.getHTML, env.dom, now);
    if err == Some(ItemPanicked) {
      return Err(Panicked);
    }
    if err.Some? {
      return Err(Failure(err.value.msg));
    }
    var b := env.marshal(MarshalKind(payloads.format), out);
    if b.Err? {
      return Err(Failure(b.error));
    }
    var reply := env.setReply(outRediskey, b.value);
    if reply.Err? {
      return Err(Failure(reply.error));
    }
    conn.SetValue(outRediskey, b.value);
    if reply.value == "OK" {
      conn.SetExpire(outRediskey, Caching.ExpireIn(env.expire));
    }
    r := Ok(b.value);
  }

  /** A cached output is returned as it is, without parsing: the pages and
      the marshallers are not consulted and Redis is unchanged. */
  lemma MarshalHitUnparsed(s: Caching.CacheState, payload: Bytes, env: MarshalEnv, now: int,
                           getHTML: string -> Result<Bytes, string>,
                           marshal: (string, seq<OutItemValue>) -> Result<Bytes, string>)
    requires env.unmarshal(payload).Ok? && OutKey(env.unmarshal(payload).value, payload, env) in s.values
    ensures MarshalOutcome(s, payload, None, env.(getHTML := getHTML, marshal := marshal), now)
            == MarshalOutcome(s, payload, None, env, now)
            == (Ok(s.values[OutKey(env.unmarshal(payload).value, payload, env)]), s)
  {
  }

  /** A miss that produces output stores exactly that output under the
      key, and a second call with the same payload answers it from the
      cache. */
  lemma MarshalCachesOutput(s: Caching.CacheState, payload: Bytes, env: MarshalEnv, now: int)
    requires MarshalOutcome(s, payload, None, env, now).0.Ok?
    ensures var (r, s1) := MarshalOutcome(s, payload, None, env, now);
      MarshalOutcome(s1, payload, None, env, now) == (r, s1)
  {
    var p := env.unmarshal(payload).value;
    var key := OutKey(p, payload, env);
    var (r, s1) := MarshalOutcome(s, payload, None, env, now);
    if key !in s.values {
      assert key in s1.values && s1.values[key] == r.value;
    }
  }

  /** Only a successful miss writes, and only under the payload's key; a
      miss on which parseItem panics answers the panic and writes nothing. */
  lemma MarshalWritesOnlyKey(s: Caching.CacheState, payload: Bytes, dialErr: Option<string>, env: MarshalEnv, now: int)
    ensures dialErr.None? && env.unmarshal(payload).Ok?
            && OutKey(env.unmarshal(payload).value, payload, env) !in s.values
            && ParseOut(env.unmarshal(payload).value.collections, env.getHTML, env.dom, now).1 == Some(ItemPanicked) ==>
      MarshalOutcome(s, payload, dialErr, env, now) == (Err(Panicked), s)
    ensures var (r, s1) := MarshalOutcome(s, payload, dialErr, env, now);
      (r.Err? ==> s1 == s)
      && (s1 != s ==> dialErr.None? && env.unmarshal(payload).Ok?
                      && var key := OutKey(env.unmarshal(payload).value, payload, env);
                         key !in s.values && s1.values == s.values[key := r.value]
                         && (s1.expiry == s.expiry || s1.expiry == s.expiry[key := Caching.ExpireIn(env.expire)]))
  {
  }
}
