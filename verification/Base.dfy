/** Shared vocabulary: optional values, results, and the handful of Go
    `strings` / `strconv` helpers the scraper relies on, over `seq<char>`. */
module Base {

  datatype Option<T> = None | Some(value: T)

  datatype Result<T, E> = Ok(value: T) | Err(error: E)

  type Bytes = seq<bv8>

  // ---------------------------------------------------------------------
  // Whitespace, as Go's unicode.IsSpace defines it (the White_Space set).

  predicate IsSpace(c: char)
  {
    c == ' ' || c == '\t' || c == '\n' || c == '\r' || c == '\U{000B}' || c == '\U{000C}'
    || c == '\U{0085}' || c == '\U{00A0}' || c == '\U{1680}'
    || ('\U{2000}' <= c <= '\U{200A}') || c == '\U{2028}' || c == '\U{2029}'
    || c == '\U{202F}' || c == '\U{205F}' || c == '\U{3000}'
  }

  /** strings.TrimLeftFunc(s, unicode.IsSpace) */
  function TrimLeftSpace(s: string): (r: string)
    ensures |r| <= |s| && r == s[|s| - |r|..]
    ensures r != [] ==> !IsSpace(r[0])
    ensures forall i :: 0 <= i < |s| - |r| ==> IsSpace(s[i])
  {
    if s != [] && IsSpace(s[0]) then TrimLeftSpace(s[1..]) else s
  }

  /** strings.TrimRightFunc(s, unicode.IsSpace) */
  function TrimRightSpace(s: string): (r: string)
    ensures |r| <= |s| && r == s[..|r|]
    ensures r != [] ==> !IsSpace(r[|r| - 1])
    ensures forall i :: |r| <= i < |s| ==> IsSpace(s[i])
  {
    if s != [] && IsSpace(s[|s| - 1]) then TrimRightSpace(s[..|s| - 1]) else s
  }

  /** strings.TrimSpace */
  function TrimSpace(s: string): string
  {
    TrimRightSpace(TrimLeftSpace(s))
  }

  /** strings.TrimRight(s, [c]): drop every trailing occurrence of `c`. */
  function TrimRightChar(s: string, c: char): (r: string)
    ensures |r| <= |s| && r == s[..|r|]
    ensures r != [] ==> r[|r| - 1] != c
    ensures forall i :: |r| <= i < |s| ==> s[i] == c
  {
    if s != [] && s[|s| - 1] == c then TrimRightChar(s[..|s| - 1], c) else s
  }

  /** strings.ToLower, restricted to ASCII letters. */
  function ToLower(s: string): (r: string)
    ensures |r| == |s|
  {
    if s == [] then [] else [LowerChar(s[0])] + ToLower(s[1..])
  }

  /** Lower-casing works character by character. */
  lemma {:induction false} ToLowerAt(s: string, i: nat)
    requires i < |s|
    ensures ToLower(s)[i] == LowerChar(s[i])
  {
    if i > 0 {
      ToLowerAt(s[1..], i - 1);
    }
  }

  /** A string without upper-case letters is its own lower case. */
  lemma ToLowerNoUpper(s: string)
    requires forall i :: 0 <= i < |s| ==> !('A' <= s[i] <= 'Z')
    ensures ToLower(s) == s
  {
    forall i | 0 <= i < |s|
      ensures ToLower(s)[i] == s[i]
    {
      ToLowerAt(s, i);
    }
  }

  function LowerChar(c: char): char
  {
    if 'A' <= c <= 'Z' then (c as int - 'A' as int + 'a' as int) as char else c
  }

  /** strings.Replace(s, [a], [b], -1) for one-character patterns. */
  function ReplaceChar(s: string, a: char, b: char): (r: string)
    ensures |r| == |s|
    ensures forall i :: 0 <= i < |s| ==> r[i] == (if s[i] == a then b else s[i])
  {
    if s == [] then [] else [if s[0] == a then b else s[0]] + ReplaceChar(s[1..], a, b)
  }

  // ---------------------------------------------------------------------
  // strings.Split / strings.Join with a one-character separator.

  /** strings.Split(s, [sep]): always at least one piece; "" gives [""]. */
  function Split(s: string, sep: char): (pieces: seq<string>)
    ensures |pieces| >= 1
    decreases |s|
  {
    if s == [] then [[]]
    else
      var rest := Split(s[1..], sep);
      if s[0] == sep then [[]] + rest
      else [[s[0]] + rest[0]] + rest[1..]
  }

  function Join(pieces: seq<string>, sep: char): string
  {
    if pieces == [] then []
    else if |pieces| == 1 then pieces[0]
    else pieces[0] + [sep] + Join(pieces[1..], sep)
  }

  /** A string without the separator splits into itself alone. */
  lemma {:induction false} SplitNone(a: string, sep: char)
    requires sep !in a
    ensures Split(a, sep) == [a]
  {
    if a != [] {
      SplitNone(a[1..], sep);
      assert a == [a[0]] + a[1..];
    }
  }

  /** Splitting at the first separator. */
  lemma {:induction false} SplitFirst(a: string, sep: char, b: string)
    requires sep !in a
    ensures Split(a + [sep] + b, sep) == [a] + Split(b, sep)
  {
    if a == [] {
      assert ([] + [sep] + b)[1..] == b;
    } else {
      assert (a + [sep] + b)[1..] == a[1..] + [sep] + b;
      SplitFirst(a[1..], sep, b);
      assert a == [a[0]] + a[1..];
    }
  }

  /** No piece of a split contains the separator. */
  lemma {:induction false} SplitPiecesFree(s: string, sep: char)
    ensures forall k, j :: 0 <= k < |Split(s, sep)| && 0 <= j < |Split(s, sep)[k]| ==> Split(s, sep)[k][j] != sep
  {
    if s != [] {
      SplitPiecesFree(s[1..], sep);
    }
  }

  /** Joining the pieces of a split gives the original string back. */
  lemma {:induction false} JoinSplit(s: string, sep: char)
    ensures Join(Split(s, sep), sep) == s
  {
    if s != [] {
      var rest := Split(s[1..], sep);
      JoinSplit(s[1..], sep);
      if s[0] == sep {
        assert Split(s, sep) == [[]] + rest;
        assert Join([[]] + rest, sep) == [] + [sep] + Join(rest, sep);
      } else {
        var ps := [[s[0]] + rest[0]] + rest[1..];
        assert Split(s, sep) == ps;
        if |rest| == 1 {
          assert Join(ps, sep) == [s[0]] + rest[0];
        } else {
          assert ps[1..] == rest[1..];
          assert Join(rest, sep) == rest[0] + [sep] + Join(rest[1..], sep);
          assert Join(ps, sep) == [s[0]] + rest[0] + [sep] + Join(rest[1..], sep);
        }
      }
    }
  }

  // ---------------------------------------------------------------------
  // Decimal rendering of naturals (fmt's %d for non-negative values).

  predicate IsDigit(c: char) { '0' <= c <= '9' }

  function DigitChar(d: nat): char
    requires d < 10
  {
    ('0' as int + d) as char
  }

  function NatToString(n: nat): (r: string)
    ensures |r| >= 1
    ensures forall i :: 0 <= i < |r| ==> IsDigit(r[i])
    decreases n
  {
    if n < 10 then [DigitChar(n)] else NatToString(n / 10) + [DigitChar(n % 10)]
  }

  /** Two different numbers are never rendered the same. */
  lemma {:induction false} NatToStringInjective(a: nat, b: nat)
    requires NatToString(a) == NatToString(b)
    ensures a == b
    decreases a
  {
    var ra, rb := NatToString(a), NatToString(b);
    if a < 10 && b < 10 {
      assert ra[0] == rb[0];
    } else if a >= 10 && b >= 10 {
      assert ra[..|ra| - 1] == NatToString(a / 10);
      assert rb[..|rb| - 1] == NatToString(b / 10);
      assert ra[|ra| - 1] == rb[|rb| - 1];
      NatToStringInjective(a / 10, b / 10);
    }
  }

  // ---------------------------------------------------------------------
  // Ordered filtering, used wherever the source keeps "the ones that match, in order".

  function Filter<T>(s: seq<T>, p: T -> bool): (r: seq<T>)
    ensures |r| <= |s|
  {
    if s == [] then [] else (if p(s[0]) then [s[0]] else []) + Filter(s[1..], p)
  }

  /** Filter keeps only elements of the input that pass. */
  lemma {:induction false} FilterSound<T>(s: seq<T>, p: T -> bool)
    ensures forall x :: x in Filter(s, p) ==> x in s && p(x)
  {
    if s != [] {
      FilterSound(s[1..], p);
    }
  }

  /** Splitting a sequence by a predicate into the kept and the rejected
      elements loses and duplicates nothing. */
  lemma {:induction false} FilterPartition<T>(s: seq<T>, p: T -> bool, q: T -> bool)
    requires forall x :: q(x) == !p(x)
    ensures |Filter(s, p)| + |Filter(s, q)| == |s|
    ensures multiset(Filter(s, p)) + multiset(Filter(s, q)) == multiset(s)
  {
    if s != [] {
      FilterPartition(s[1..], p, q);
      assert s == [s[0]] + s[1..];
    }
  }

  /** Filter keeps every element that passes. */
  lemma {:induction false} FilterKeeps<T>(s: seq<T>, x: T, p: T -> bool)
    requires x in s && p(x)
    ensures x in Filter(s, p)
  {
    if s[0] != x {
      FilterKeeps(s[1..], x, p);
    }
  }

  lemma {:induction false} FilterAppend<T>(s: seq<T>, x: T, p: T -> bool)
    ensures Filter(s + [x], p) == Filter(s, p) + (if p(x) then [x] else [])
  {
    var tail := if p(x) then [x] else [];
    if s == [] {
      assert [x][1..] == [];
    } else {
      var head := if p(s[0]) then [s[0]] else [];
      assert (s + [x])[0] == s[0] && (s + [x])[1..] == s[1..] + [x];
      assert Filter(s + [x], p) == head + Filter(s[1..] + [x], p);
      FilterAppend(s[1..], x, p);
      assert Filter(s + [x], p) == head + (Filter(s[1..], p) + tail);
      assert head + (Filter(s[1..], p) + tail) == (head + Filter(s[1..], p)) + tail;
    }
  }
}
