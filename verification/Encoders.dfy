/** The output encoders of scrape/encoders.go: the format dispatch, JSON
    (paged or flat), CSV (one record per block, columns by Part name) and
    XML (an `items` element around one `item` per block).

    The byte-level rendering of CSV records (quoting) is left to the csv
    package and of JSON and XML values to json and mxj; those appear as
    parameters. What is modelled is which records, in which order, with
    which cells, and how the output is framed. */
module Encoders {
  import opened Base
  import opened Blocks

  /** The three encoders NewEncoder can build. */
  datatype Encoder =
    | CSVEncoder(partNames: seq<string>, comma: string)
    | JSONEncoder(paginateResults: bool)
    | XMLEncoder

  /** NewEncoder: the scraper's format, lower-cased, picks the encoder;
      the CSV encoder gets the Part names as its header and "," as its
      separator. Any other format gives nil. */
  function NewEncoder(format: string, partNames: seq<string>, paginateResults: bool): (e: Option<Encoder>)
    ensures e == Some(CSVEncoder(partNames, ",")) <==> ToLower(format) == "csv"
    ensures e == Some(JSONEncoder(paginateResults)) <==> ToLower(format) == "json"
    ensures e == Some(XMLEncoder) <==> ToLower(format) == "xml"
    ensures e.None? <==> ToLower(format) !in {"csv", "json", "xml"}
  {
    match ToLower(format)
    case "csv" => Some(CSVEncoder(partNames, ","))
    case "json" => Some(JSONEncoder(paginateResults))
    case "xml" => Some(XMLEncoder)
    case _ => None
  }

  // ---------------------------------------------------------------------
  // JSON

  /** What json.Encoder is given: the page-grouped results, or the flat
      block list. */
  datatype JSONInput = Paged(results: Results) | Flat(blocks: seq<Block>)

  /** JSONEncoder.Encode never fails. */
  method EncodeJSON(paginateResults: bool, r: Results, json: JSONInput -> Bytes) returns (out: Result<Bytes, string>)
    ensures paginateResults ==> out == Ok(json(Paged(r)))
    ensures !paginateResults ==> out == Ok(json(Flat(Concat(r.output))))
  {
    if paginateResults {
      out := Ok(json(Paged(r)));
    } else {
      var all := AllBlocks(r);
      out := Ok(json(Flat(all)));
    }
  }

  // ---------------------------------------------------------------------
  // CSV

  const ErrInvalidDelim: string := "csv: invalid field or comment delimiter"

  /** csv.Writer's check on its separator (validDelim); a separator taken
      from one byte is always a valid rune, so only these four fail. */
  predicate ValidDelim(c: char)
  {
    c != '\U{0000}' && c != '"' && c != '\r' && c != '\n'
  }

  /** The first byte of c's UTF-8 encoding: c itself below 0x80, and
      otherwise the lead byte of its two-, three- or four-byte form. */
  function Utf8Lead(c: char): (b: nat)
    ensures b < 0x100
    ensures c as int < 0x80 ==> b == c as int
    ensures c as int >= 0x80 ==> 0xC0 <= b
  {
    var n := c as int;
    if n < 0x80 then n
    else if n < 0x800 then 0xC0 + n / 0x40
    else if n < 0x10000 then 0xE0 + n / 0x1000
    else 0xF0 + n / 0x40000
  }

  /** encodeCSV's separator: "," when comma is empty, else the rune of
      comma's first byte, `rune(comma[0])`. An ASCII first character is
      the separator itself; any other becomes the Latin-1 rune of its
      UTF-8 lead byte. */
  function Separator(comma: string): (c: char)
    ensures comma == [] ==> c == ','
    ensures comma != [] ==> c as int == Utf8Lead(comma[0])
    ensures comma != [] && comma[0] as int < 0x80 ==> c == comma[0]
    ensures comma != [] && comma[0] as int >= 0x80 ==> 0xC0 <= c as int < 0x100
  {
    if comma == [] then ',' else Utf8Lead(comma[0]) as char
  }

  /** "é" (U+00E9, bytes C3 A9) gives the separator 'Ã' (U+00C3), not 'é'. */
  lemma SeparatorOfMultiByte(rest: string)
    ensures Separator("\U{00E9}" + rest) == '\U{00C3}'
  {
    assert ("\U{00E9}" + rest)[0] == '\U{00E9}';
  }

  /** A csv.Writer, as the sequence of records written to it. */
  class CSVWriter {
    var comma: char
    var records: seq<seq<string>>

    constructor ()
      ensures comma == ',' && records == []
    {
      comma := ',';
      records := [];
    }

    method SetComma(c: char)
      modifies this
      ensures comma == c && records == old(records)
    {
      comma := c;
    }

    /** Write: refuses every record while the separator is invalid. */
    method Write(record: seq<string>) returns (err: Option<string>)
      modifies this
      ensures comma == old(comma)
      ensures ValidDelim(comma) ==> err.None? && records == old(records) + [record]
      ensures !ValidDelim(comma) ==> err == Some(ErrInvalidDelim) && records == old(records)
    {
      if ValidDelim(comma) {
        records := records + [record];
        err := None;
      } else {
        err := Some(ErrInvalidDelim);
      }
    }
  }

  /** The cell a value gives, where `prev` is what the reused row buffer
      already holds: strings as themselves, string lists joined by ";", nil
      or absent as "", and any other type leaves the buffer alone. */
  function Cell(prev: string, v: Value): string
  {
    match v
    case VStr(s) => s
    case VStrs(ss) => JoinWith(ss, ";")
    case VNil => ""
    case VOther(_) => prev
  }

  /** strings.Join with a string separator. */
  function JoinWith(ss: seq<string>, sep: string): string
  {
    if ss == [] then [] else if |ss| == 1 then ss[0] else ss[0] + sep + JoinWith(ss[1..], sep)
  }

  /** The row buffer after filling it for one block. */
  function Refill(prev: seq<string>, header: seq<string>, row: Block): (r: seq<string>)
    requires |prev| == |header|
    ensures |r| == |header|
    ensures forall i :: 0 <= i < |header| ==> r[i] == Cell(prev[i], Lookup(row, header[i]))
  {
    seq(|header|, i requires 0 <= i < |header| => Cell(prev[i], Lookup(row, header[i])))
  }

  /** The row buffer after the first n blocks. */
  function BufferAfter(header: seq<string>, rows: seq<Block>, n: nat): (r: seq<string>)
    requires n <= |rows|
    ensures |r| == |header|
  {
    if n == 0 then seq(|header|, _ => "") else Refill(BufferAfter(header, rows, n - 1), header, rows[n - 1])
  }

  /** The data records: one per block, each the buffer as it stands after
      that block. */
  function DataRecords(header: seq<string>, rows: seq<Block>, n: nat): (recs: seq<seq<string>>)
    requires n <= |rows|
    ensures |recs| == n
    ensures forall j :: 0 <= j < n ==> |recs[j]| == |header|
  {
    if n == 0 then [] else DataRecords(header, rows, n - 1) + [BufferAfter(header, rows, n)]
  }

  /** Everything encodeCSV writes when the separator is valid: the header
      if there is one, then the data records. */
  function CSVRecords(header: seq<string>, rows: seq<Block>): seq<seq<string>>
  {
    (if |header| > 0 then [header] else []) + DataRecords(header, rows, |rows|)
  }

  /** The inner loop of encodeCSV: refill the reused buffer for one block,
      column by column in header order. */
  method FillRow(r: array<string>, header: seq<string>, row: Block)
    requires r.Length == |header|
    modifies r
    ensures r[..] == Refill(old(r[..]), header, row)
  {
    ghost var prev := r[..];
    for i := 0 to |header|
      invariant forall j :: 0 <= j < i ==> r[j] == Cell(prev[j], Lookup(row, header[j]))
      invariant forall j :: i <= j < |header| ==> r[j] == prev[j]
    {
      var v := Lookup(row, header[i]);
      match v {
        case VStr(s) => r[i] := s;
        case VStrs(ss) => r[i] := JoinWith(ss, ";");
        case VNil => r[i] := "";
        case VOther(_) =>
      }
    }
  }

  /** encodeCSV: sets the separator, writes the header if non-empty, then
      refills the one row buffer for each block and writes it. The first
      writer error is returned at once. */
  method EncodeCSV(header: seq<string>, rows: seq<Block>, comma: string, w: CSVWriter) returns (err: Option<string>)
    modifies w
    ensures w.comma == Separator(comma)
    ensures ValidDelim(w.comma) ==> err.None? && w.records == old(w.records) + CSVRecords(header, rows)
    ensures !ValidDelim(w.comma) ==>
              (w.records == old(w.records) && (err.Some? <==> |header| > 0 || |rows| > 0))
    ensures err.Some? ==> err == Some(ErrInvalidDelim)
  {
    w.SetComma(Separator(comma));
    if |header| > 0 {
      err := w.Write(header);
      if err.Some? {
        return;
      }
    }
    var r := new string[|header|](_ => "");
    assert r[..] == BufferAfter(header, rows, 0);
    err := WriteRows(r, header, rows, w);
  }

  /** The record loop of encodeCSV: refill the buffer for each block and
      write it; the first writer error is returned at once. */
  method WriteRows(r: array<string>, header: seq<string>, rows: seq<Block>, w: CSVWriter) returns (err: Option<string>)
    requires r.Length == |header| && r[..] == BufferAfter(header, rows, 0)
    modifies r, w
    ensures w.comma == old(w.comma)
    ensures ValidDelim(w.comma) ==> err.None? && w.records == old(w.records) + DataRecords(header, rows, |rows|)
    ensures !ValidDelim(w.comma) ==> w.records == old(w.records) && (err.Some? <==> |rows| > 0)
    ensures err.Some? ==> err == Some(ErrInvalidDelim)
  {
    for k := 0 to |rows|
      invariant w.comma == old(w.comma)
      invariant r[..] == BufferAfter(header, rows, k)
      invariant ValidDelim(w.comma) ==> w.records == old(w.records) + DataRecords(header, rows, k)
      invariant !ValidDelim(w.comma) ==> w.records == old(w.records) && k == 0
    {
      FillRow(r, header, rows[k]);
      assert r[..] == BufferAfter(header, rows, k + 1);
      err := w.Write(r[..]);
      if err.Some? {
        return;
      }
    }
    err := None;
  }

  /** The shape of the CSV output: one record per block, each with exactly
      one field per header column, after the header when there is one. */
  lemma CSVShape(header: seq<string>, rows: seq<Block>)
    ensures |CSVRecords(header, rows)| == |rows| + (if |header| > 0 then 1 else 0)
    ensures |header| > 0 ==> CSVRecords(header, rows)[0] == header
    ensures forall k :: 0 <= k < |rows| ==> |DataRecords(header, rows, |rows|)[k]| == |header|
  {
    forall k | 0 <= k < |rows|
      ensures |DataRecords(header, rows, |rows|)[k]| == |header|
    {
      DataRecordAt(header, rows, |rows|, k);
    }
  }

  /** Record k is the buffer after block k. */
  lemma {:induction false} DataRecordAt(header: seq<string>, rows: seq<Block>, n: nat, k: nat)
    requires k < n <= |rows|
    ensures DataRecords(header, rows, n)[k] == BufferAfter(header, rows, k + 1)
  {
    if k < n - 1 {
      DataRecordAt(header, rows, n - 1, k);
    }
  }

  /** The cell in column i of record k, in header order: block k's value
      under header[i] converted, or, for a value of an unconverted type,
      the same column of the record before (empty for the first block). */
  lemma CSVCell(header: seq<string>, rows: seq<Block>, k: nat, i: nat)
    requires k < |rows| && i < |header|
    ensures var cell := DataRecords(header, rows, |rows|)[k][i];
      var v := Lookup(rows[k], header[i]);
      (v.VStr? ==> cell == v.s)
      && (v.VStrs? ==> cell == JoinWith(v.ss, ";"))
      && (v.VNil? ==> cell == "")
      && (v.VOther? && k == 0 ==> cell == "")
      && (v.VOther? && k > 0 ==> cell == DataRecords(header, rows, |rows|)[k - 1][i])
  {
    DataRecordAt(header, rows, |rows|, k);
    if k > 0 {
      DataRecordAt(header, rows, |rows|, k - 1);
    }
  }

  /** CSVEncoder.Encode: the flat block list under the Part names as the
      header; an encodeCSV error is returned, otherwise the rendering of
      the records written. */
  method EncodeCSVResults(e: Encoder, r: Results, render: (seq<seq<string>>, char) -> Bytes)
    returns (out: Result<Bytes, string>)
    requires e.CSVEncoder?
    ensures var sep := Separator(e.comma);
      var blocks := Concat(r.output);
      if ValidDelim(sep) then out == Ok(render(CSVRecords(e.partNames, blocks), sep))
      else if |e.partNames| > 0 || |blocks| > 0 then out == Err(ErrInvalidDelim)
      else out == Ok(render([], sep))
  {
    var w := new CSVWriter();
    var all := AllBlocks(r);
    var err := EncodeCSV(e.partNames, all, e.comma, w);
    if err.Some? {
      return Err(err.value);
    }
    assert w.comma == Separator(e.comma);
    assert ValidDelim(w.comma) ==> w.records == CSVRecords(e.partNames, Concat(r.output));
    assert !ValidDelim(w.comma) ==> w.records == [];
    out := Ok(render(w.records, w.comma));
  }

  // ---------------------------------------------------------------------
  // XML

  /** The framing encodeXML writes, as bytes: the declaration
      `<?xml version="1.0" encoding="UTF-8"?>`, then `<items>` and
      `</items>`. */
  const DeclarationBytes: Bytes :=
    [0x3C, 0x3F, 0x78, 0x6D, 0x6C, 0x20, 0x76, 0x65, 0x72, 0x73, 0x69, 0x6F, 0x6E, 0x3D, 0x22, 0x31, 0x2E, 0x30, 0x22, 0x20, 0x65, 0x6E, 0x63, 0x6F, 0x64, 0x69, 0x6E, 0x67, 0x3D, 0x22, 0x55, 0x54, 0x46, 0x2D, 0x38, 0x22, 0x3F, 0x3E]
  const ItemsOpenBytes: Bytes := [0x3C, 0x69, 0x74, 0x65, 0x6D, 0x73, 0x3E]
  const ItemsCloseBytes: Bytes := [0x3C, 0x2F, 0x69, 0x74, 0x65, 0x6D, 0x73, 0x3E]

  /** A bytes.Buffer. */
  class ByteBuffer {
    var data: Bytes

    constructor ()
      ensures data == []
    {
      data := [];
    }

    method Write(b: Bytes)
      modifies this
      ensures data == old(data) + b
    {
      data := data + b;
    }
  }

  /** The `item` elements for the first blocks, up to the first one mxj
      cannot write, and that one's error. */
  function Items(blocks: seq<Block>, item: Block -> Result<Bytes, string>): (r: (Bytes, Option<string>))
  {
    if blocks == [] then ([], None)
    else
      var (pre, e) := Items(blocks[..|blocks| - 1], item);
      if e.Some? then (pre, e)
      else
        match item(blocks[|blocks| - 1])
        case Err(e2) => (pre, Some(e2))
        case Ok(b) => (pre + b, None)
  }

  /** encodeXML: the declaration, `<items>`, one item per block, and
      `</items>`; an item error returns at once, leaving the buffer without
      the closing tag. */
  method EncodeXML(blocks: seq<Block>, buf: ByteBuffer, item: Block -> Result<Bytes, string>)
    returns (err: Option<string>)
    modifies buf
    ensures var (items, e) := Items(blocks, item);
      err == e
      && buf.data == old(buf.data) + DeclarationBytes + ItemsOpenBytes + items
                     + (if e.None? then ItemsCloseBytes else [])
  {
    buf.Write(DeclarationBytes);
    buf.Write(ItemsOpenBytes);
    ghost var start := buf.data;
    for k := 0 to |blocks|
      invariant Items(blocks[..k], item).1.None?
      invariant buf.data == start + Items(blocks[..k], item).0
    {
      assert blocks[..k + 1][..k] == blocks[..k];
      var m := item(blocks[k]);
      if m.Err? {
        ItemsStop(blocks, item, k + 1);
        return Some(m.error);
      }
      buf.Write(m.value);
    }
    assert blocks[..|blocks|] == blocks;
    buf.Write(ItemsCloseBytes);
    err := None;
  }

  /** Once an item fails, the later blocks change nothing. */
  lemma {:induction false} ItemsStop(blocks: seq<Block>, item: Block -> Result<Bytes, string>, k: nat)
    requires k <= |blocks| && Items(blocks[..k], item).1.Some?
    ensures Items(blocks, item) == Items(blocks[..k], item)
    decreases |blocks| - k
  {
    if k < |blocks| {
      assert blocks[..k + 1][..k] == blocks[..k];
      ItemsStop(blocks, item, k + 1);
    } else {
      assert blocks[..k] == blocks;
    }
  }

  /** The items are written exactly when every block can be written, and
      then they are the blocks' elements in order. */
  lemma {:induction false} ItemsAllOk(blocks: seq<Block>, item: Block -> Result<Bytes, string>)
    ensures Items(blocks, item).1.None? <==> forall k :: 0 <= k < |blocks| ==> item(blocks[k]).Ok?
    ensures Items(blocks, item).1.Some? ==>
      exists k :: 0 <= k < |blocks| && item(blocks[k]).Err?
                  && Items(blocks, item).1 == Some(item(blocks[k]).error)
                  && (forall j :: 0 <= j < k ==> item(blocks[j]).Ok?)
  {
    if blocks != [] {
      var init := blocks[..|blocks| - 1];
      ItemsAllOk(init, item);
      assert forall k :: 0 <= k < |init| ==> init[k] == blocks[k];
      if Items(init, item).1.Some? {
        var k :| 0 <= k < |init| && item(init[k]).Err?
                 && Items(init, item).1 == Some(item(init[k]).error)
                 && (forall j :: 0 <= j < k ==> item(init[j]).Ok?);
        assert item(blocks[k]).Err?;
      } else if item(blocks[|blocks| - 1]).Err? {
        var k := |blocks| - 1;
        assert forall j :: 0 <= j < k ==> item(blocks[j]).Ok?;
      }
    }
  }

  /** XMLEncoder.Encode: a fresh buffer framed by encodeXML over the flat
      block list; an item error is returned. */
  method EncodeXMLResults(r: Results, item: Block -> Result<Bytes, string>) returns (out: Result<Bytes, string>)
    ensures var (items, e) := Items(Concat(r.output), item);
      if e.Some? then out == Err(e.value)
      else out == Ok(DeclarationBytes + ItemsOpenBytes + items + ItemsCloseBytes)
  {
    var buf := new ByteBuffer();
    var all := AllBlocks(r);
    var err := EncodeXML(all, buf, item);
    assert [] + DeclarationBytes == DeclarationBytes;
    if err.Some? {
      return Err(err.value);
    }
    out := Ok(buf.data);
  }
}
