/** Extracted values and the Results container of scrape/scrape.go: a block
    is the map from Part names to what their extractors produced for one
    matched element, and Results.Output groups blocks by page. */
module Blocks {
  import opened Base

  /** The dynamic types an extracted value can have that the encoders
      distinguish; `VOther` stands for every other type (numbers, maps,
      ...), which the encoders do not convert. */
  datatype Value = VStr(s: string) | VStrs(ss: seq<string>) | VNil | VOther(tag: string)

  /** A block: Part name to value. An absent key reads as nil. */
  type Block = map<string, Value>

  function Lookup(b: Block, key: string): Value
  {
    if key in b then b[key] else VNil
  }

  datatype Results = Results(output: seq<seq<Block>>)

  /** The concatenation of the pages, page after page and block after block
      within a page. */
  function Concat(pages: seq<seq<Block>>): seq<Block>
  {
    if pages == [] then [] else Concat(pages[..|pages| - 1]) + pages[|pages| - 1]
  }

  /** The number of blocks over all pages. */
  function TotalBlocks(pages: seq<seq<Block>>): nat
  {
    if pages == [] then 0 else TotalBlocks(pages[..|pages| - 1]) + |pages[|pages| - 1]|
  }

  /** Results.AllBlocks: appends every block of every page, in order. */
  method AllBlocks(r: Results) returns (ret: seq<Block>)
    ensures ret == Concat(r.output)
    ensures |ret| == TotalBlocks(r.output)
  {
    ret := [];
    for p := 0 to |r.output|
      invariant ret == Concat(r.output[..p])
    {
      var page := r.output[p];
      ghost var before := ret;
      for b := 0 to |page|
        invariant ret == before + page[..b]
      {
        ret := ret + [page[b]];
      }
      assert page[..|page|] == page;
      assert r.output[..p + 1][..p] == r.output[..p];
    }
    assert r.output[..|r.output|] == r.output;
    ConcatLength(r.output);
  }

  /** The flattened list holds as many blocks as the pages together. */
  lemma {:induction false} ConcatLength(pages: seq<seq<Block>>)
    ensures |Concat(pages)| == TotalBlocks(pages)
  {
    if pages != [] {
      ConcatLength(pages[..|pages| - 1]);
    }
  }

  /** Concatenation distributes over appending pages. */
  lemma {:induction false} ConcatAppend(a: seq<seq<Block>>, b: seq<seq<Block>>)
    ensures Concat(a + b) == Concat(a) + Concat(b)
    decreases |b|
  {
    if b == [] {
      assert a + b == a;
    } else {
      var b' := b[..|b| - 1];
      assert (a + b)[..|a + b| - 1] == a + b';
      ConcatAppend(a, b');
    }
  }

  /** Block j of page p is found at the offset of page p plus j: nothing
      is reordered across or within pages. */
  lemma {:induction false} ConcatIndex(pages: seq<seq<Block>>, p: nat, j: nat)
    requires p < |pages| && j < |pages[p]|
    ensures TotalBlocks(pages[..p]) + j < |Concat(pages)|
    ensures Concat(pages)[TotalBlocks(pages[..p]) + j] == pages[p][j]
  {
    assert pages == pages[..p] + pages[p..];
    ConcatAppend(pages[..p], pages[p..]);
    ConcatLength(pages[..p]);
    assert pages[p..] == [pages[p]] + pages[p + 1..];
    ConcatAppend([pages[p]], pages[p + 1..]);
    assert [pages[p]][..0] == [];
    assert Concat([pages[p]]) == pages[p];
  }

  /** Results.First: nil when the first page has no blocks, otherwise its
      first block. Indexing Output[0] panics on results with no page: the
      `Err` outcome. */
  function First(r: Results): (b: Result<Option<Block>, string>)
    ensures b.Err? <==> |r.output| == 0
    ensures b.Ok? && b.value.None? <==> |r.output| > 0 && |r.output[0]| == 0
    ensures b.Ok? && b.value.Some? ==> |Concat(r.output)| > 0 && b.value.value == Concat(r.output)[0]
  {
    if |r.output| == 0 then Err("index out of range")
    else if |r.output[0]| == 0 then Ok(None)
    else
      ConcatIndex(r.output, 0, 0);
      assert r.output[..0] == [];
      Ok(Some(r.output[0][0]))
  }
}
