/**
 The order `lines_with_titles.sort()` puts display lines in: Python compares
 two strings code point by code point, a proper prefix coming first, and two
 (title, body) tuples by title, then by body. The sort itself is modelled by
 an insertion sort; since the order is total and antisymmetric, there is
 exactly one sorted arrangement of a list, so any correct sort (Python uses
 Timsort) produces the same list (lemma SortedUnique).
 */
module Ordering {
  import opened Formatter

  /** Python's `a <= b` on strings. */
  predicate StrLeq(a: string, b: string)
  {
    a == [] || (b != [] && (a[0] < b[0] || (a[0] == b[0] && StrLeq(a[1..], b[1..]))))
  }

  lemma {:induction false} StrLeqReflexive(a: string)
    ensures StrLeq(a, a)
  {
    if a != [] {
      StrLeqReflexive(a[1..]);
    }
  }

  lemma {:induction false} StrLeqAntisymmetric(a: string, b: string)
    requires StrLeq(a, b) && StrLeq(b, a)
    ensures a == b
  {
    if a != [] && b != [] {
      StrLeqAntisymmetric(a[1..], b[1..]);
      assert a == [a[0]] + a[1..] && b == [b[0]] + b[1..];
    }
  }

  lemma {:induction false} StrLeqTransitive(a: string, b: string, c: string)
    requires StrLeq(a, b) && StrLeq(b, c)
    ensures StrLeq(a, c)
  {
    if a != [] && b != [] && c != [] && a[0] == b[0] == c[0] {
      StrLeqTransitive(a[1..], b[1..], c[1..]);
    }
  }

  lemma {:induction false} StrLeqTotal(a: string, b: string)
    ensures StrLeq(a, b) || StrLeq(b, a)
  {
    if a != [] && b != [] && a[0] == b[0] {
      StrLeqTotal(a[1..], b[1..]);
    }
  }

  /** Python's `x <= y` on (title, body) tuples. */
  predicate LineLeq(x: DisplayLine, y: DisplayLine)
  {
    if x.title == y.title then StrLeq(x.body, y.body) else StrLeq(x.title, y.title)
  }

  lemma LineLeqReflexive(x: DisplayLine)
    ensures LineLeq(x, x)
  {
    StrLeqReflexive(x.body);
  }

  lemma LineLeqAntisymmetric(x: DisplayLine, y: DisplayLine)
    requires LineLeq(x, y) && LineLeq(y, x)
    ensures x == y
  {
    if x.title == y.title {
      StrLeqAntisymmetric(x.body, y.body);
    } else {
      StrLeqAntisymmetric(x.title, y.title);
    }
  }

  lemma LineLeqTransitive(x: DisplayLine, y: DisplayLine, z: DisplayLine)
    requires LineLeq(x, y) && LineLeq(y, z)
    ensures LineLeq(x, z)
  {
    if x.title == y.title == z.title {
      StrLeqTransitive(x.body, y.body, z.body);
    } else if x.title != y.title && y.title != z.title {
      if x.title == z.title {
        StrLeqAntisymmetric(x.title, y.title);
      }
      StrLeqTransitive(x.title, y.title, z.title);
    }
  }

  lemma LineLeqTotal(x: DisplayLine, y: DisplayLine)
    ensures LineLeq(x, y) || LineLeq(y, x)
  {
    StrLeqTotal(x.title, y.title);
    StrLeqTotal(x.body, y.body);
  }

  /** Every line is at most every later line. */
  predicate Sorted(lines: seq<DisplayLine>)
  {
    forall i, j :: 0 <= i < j < |lines| ==> LineLeq(lines[i], lines[j])
  }

  /** `x` placed before the first line it does not exceed. */
  function Insert(x: DisplayLine, lines: seq<DisplayLine>): (r: seq<DisplayLine>)
    ensures multiset(r) == multiset(lines) + multiset{x}
    ensures Sorted(lines) ==> Sorted(r)
  {
    if lines == [] then [x]
    else if LineLeq(x, lines[0]) then
      InsertFrontSorted(x, lines);
      [x] + lines
    else
      var rest := Insert(x, lines[1..]);
      LineLeqTotal(x, lines[0]);
      assert lines == [lines[0]] + lines[1..];
      InsertBehindSorted(lines[0], x, lines[1..], rest);
      [lines[0]] + rest
  }

  lemma InsertFrontSorted(x: DisplayLine, lines: seq<DisplayLine>)
    requires lines != [] && LineLeq(x, lines[0])
    ensures Sorted(lines) ==> Sorted([x] + lines)
  {
    if Sorted(lines) {
      forall j | 1 <= j < |lines| + 1
        ensures LineLeq(x, ([x] + lines)[j])
      {
        if j > 1 {
          LineLeqTransitive(x, lines[0], lines[j - 1]);
        }
      }
    }
  }

  lemma InsertBehindSorted(y: DisplayLine, x: DisplayLine, tail: seq<DisplayLine>, rest: seq<DisplayLine>)
    requires LineLeq(y, x)
    requires multiset(rest) == multiset(tail) + multiset{x}
    requires Sorted([y] + tail) ==> Sorted(rest)
    ensures Sorted([y] + tail) ==> Sorted([y] + rest)
  {
    if Sorted([y] + tail) {
      forall j | 0 <= j < |rest|
        ensures LineLeq(y, rest[j])
      {
        assert rest[j] in multiset(rest);
        if rest[j] != x {
          assert rest[j] in multiset(tail);
          var k :| 0 <= k < |tail| && tail[k] == rest[j];
          assert ([y] + tail)[0] == y && ([y] + tail)[k + 1] == rest[j];
          assert LineLeq(([y] + tail)[0], ([y] + tail)[k + 1]);
        }
      }
    }
  }

  /** The model of `list.sort()`: the lines in ascending order. */
  function SortLines(lines: seq<DisplayLine>): (r: seq<DisplayLine>)
    ensures Sorted(r)
    ensures multiset(r) == multiset(lines)
  {
    if lines == [] then []
    else
      assert lines == [lines[0]] + lines[1..];
      Insert(lines[0], SortLines(lines[1..]))
  }

  /** The first line of a sorted list is at most every line in it. */
  lemma SortedHeadIsLeast(s: seq<DisplayLine>, x: DisplayLine)
    requires Sorted(s) && x in multiset(s)
    ensures LineLeq(s[0], x)
  {
    var i :| 0 <= i < |s| && s[i] == x;
    if i == 0 {
      LineLeqReflexive(x);
    } else {
      assert LineLeq(s[0], s[i]);
    }
  }

  lemma SortedTail(s: seq<DisplayLine>)
    requires s != [] && Sorted(s)
    ensures Sorted(s[1..])
  {
    forall i, j | 0 <= i < j < |s| - 1
      ensures LineLeq(s[1..][i], s[1..][j])
    {
      assert s[1..][i] == s[i + 1] && s[1..][j] == s[j + 1];
    }
  }

  lemma TailMultiset(s: seq<DisplayLine>)
    requires s != []
    ensures multiset(s[1..]) == multiset(s) - multiset{s[0]}
  {
    assert s == [s[0]] + s[1..];
  }

  /** A sorted arrangement of a multiset of lines is unique: the result of
      `sort()` does not depend on the sorting algorithm nor on the order the
      records came in. */
  lemma {:induction false} SortedUnique(a: seq<DisplayLine>, b: seq<DisplayLine>)
    requires Sorted(a) && Sorted(b)
    requires multiset(a) == multiset(b)
    ensures a == b
    decreases |a|
  {
    assert |a| == |multiset(a)| == |multiset(b)| == |b|;
    if a != [] {
      assert a[0] in multiset(a) && b[0] in multiset(b);
      SortedHeadIsLeast(a, b[0]);
      SortedHeadIsLeast(b, a[0]);
      LineLeqAntisymmetric(a[0], b[0]);
      TailMultiset(a);
      TailMultiset(b);
      SortedTail(a);
      SortedTail(b);
      SortedUnique(a[1..], b[1..]);
      assert a == [a[0]] + a[1..] && b == [b[0]] + b[1..];
    }
  }

  /** Sorting is deterministic in the multiset of its input: two lists of the
      same lines, in any order, sort to the same list. */
  lemma SortIgnoresInputOrder(a: seq<DisplayLine>, b: seq<DisplayLine>)
    requires multiset(a) == multiset(b)
    ensures SortLines(a) == SortLines(b)
  {
    SortedUnique(SortLines(a), SortLines(b));
  }

  /** Ties on the title are broken by the body. */
  lemma TiesOrderedByBody(lines: seq<DisplayLine>, i: nat, j: nat)
    requires i < j < |SortLines(lines)|
    requires SortLines(lines)[i].title == SortLines(lines)[j].title
    ensures StrLeq(SortLines(lines)[i].body, SortLines(lines)[j].body)
  {
  }
}
