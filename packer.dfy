/**
 The packer of `send_puzzles`: the sorted display lines are spread over
 pages (Discord embeds) that all carry the same title. A line is added to the
 current page unless its length plus the page's length would reach 6000
 characters or the page already holds 25 fields; then the page is sent and a
 fresh one started. The last page is always sent, even with no field.

 Sending is modelled as appending to the returned sequence of pages. The
 length of an embed is the sum of the lengths of its title and of every
 field's name and value: the packed embeds have nothing else set.
 */
module Packer {
  import opened Formatter
  import opened Ordering

  const MaxEmbedLength: nat := 6000
  const MaxFields: nat := 25

  /** One embed: its title and its fields, each a (name, value) line. */
  datatype Page = Page(title: string, fields: seq<DisplayLine>)

  function LineLength(line: DisplayLine): nat
  {
    |line.title| + |line.body|
  }

  function FieldsLength(fields: seq<DisplayLine>): nat
  {
    if fields == [] then 0
    else FieldsLength(fields[..|fields| - 1]) + LineLength(fields[|fields| - 1])
  }

  /** `len(embed)`. */
  function EmbedLength(page: Page): nat
  {
    |page.title| + FieldsLength(page.fields)
  }

  /** The fields of all pages, page after page. */
  function Flatten(pages: seq<Page>): seq<DisplayLine>
  {
    if pages == [] then []
    else Flatten(pages[..|pages| - 1]) + pages[|pages| - 1].fields
  }

  /** A line too long to share a page: with the page title alone it already
      reaches the limit. */
  predicate Oversized(title: string, line: DisplayLine)
  {
    |title| + LineLength(line) >= MaxEmbedLength
  }

  /** `page` was sent because the first line of `next` did not fit on it:
      the line would have made it reach the length limit, or it was full. */
  predicate FlushedBefore(page: Page, next: Page)
  {
    next.fields != [] &&
    (EmbedLength(page) + LineLength(next.fields[0]) >= MaxEmbedLength || |page.fields| >= MaxFields)
  }

  /** A page that respects the limits: it carries the title, holds at most
      25 fields, and stays below 6000 characters unless it holds one field
      or none. */
  predicate PageFits(title: string, page: Page)
  {
    && page.title == title
    && |page.fields| <= MaxFields
    && (|page.fields| >= 2 ==> EmbedLength(page) < MaxEmbedLength)
  }

  /** What sending `lines` under `title` produces: */
  predicate Paginated(title: string, lines: seq<DisplayLine>, pages: seq<Page>)
  {
    // at least one page is sent;
    && pages != []
    // the fields, page after page, are exactly the lines: none lost,
    // duplicated, split, altered or reordered;
    && Flatten(pages) == lines
    // every page carries the title and respects the limits;
    && (forall k :: 0 <= k < |pages| ==> PageFits(title, pages[k]))
    // the first page is empty exactly when there is no line or the first
    // line is too long to join even an empty page;
    && (pages[0].fields == [] <==> lines == [] || Oversized(title, lines[0]))
    // every later page is sent only when its first line does not fit on
    // the page before (so no later page is empty).
    && (forall k :: 0 <= k < |pages| - 1 ==> FlushedBefore(pages[k], pages[k + 1]))
  }

  lemma FieldsLengthAppend(fields: seq<DisplayLine>, line: DisplayLine)
    ensures FieldsLength(fields + [line]) == FieldsLength(fields) + LineLength(line)
  {
    assert (fields + [line])[..|fields|] == fields;
  }

  lemma FlattenAppend(pages: seq<Page>, page: Page)
    ensures Flatten(pages + [page]) == Flatten(pages) + page.fields
  {
    assert (pages + [page])[..|pages|] == pages;
  }

  /** Adding a line that fits to the last page keeps a pagination. */
  lemma AddToLastPage(title: string, lines: seq<DisplayLine>, sent: seq<Page>, last: Page, line: DisplayLine)
    requires Paginated(title, lines, sent + [last])
    requires LineLength(line) + EmbedLength(last) < MaxEmbedLength && |last.fields| < MaxFields
    ensures Paginated(title, lines + [line], sent + [Page(title, last.fields + [line])])
  {
    var last' := Page(title, last.fields + [line]);
    FieldsLengthAppend(last.fields, line);
    FlattenAppend(sent, last);
    FlattenAppend(sent, last');
    var before, after := sent + [last], sent + [last'];
    assert forall k :: 0 <= k < |sent| ==> before[k] == after[k] == sent[k];
    assert before[|sent|] == last && after[|sent|] == last';
    if sent == [] {
      assert lines == last.fields;
    }
  }

  /** Sending the last page and starting a new one with a line that does not
      fit on it keeps a pagination. */
  lemma StartNewPage(title: string, lines: seq<DisplayLine>, sent: seq<Page>, last: Page, line: DisplayLine)
    requires Paginated(title, lines, sent + [last])
    requires LineLength(line) + EmbedLength(last) >= MaxEmbedLength || |last.fields| >= MaxFields
    ensures Paginated(title, lines + [line], sent + [last] + [Page(title, [line])])
  {
    var before := sent + [last];
    var after := before + [Page(title, [line])];
    FlattenAppend(before, Page(title, [line]));
    assert forall k :: 0 <= k < |before| ==> after[k] == before[k];
    if lines == [] {
      assert before[0].fields == [];
      assert EmbedLength(before[0]) == |title|;
    }
  }

  /** The packing loop of `send_puzzles`; the pages in the order they are sent. */
  method Pack(title: string, lines: seq<DisplayLine>) returns (pages: seq<Page>)
    ensures Paginated(title, lines, pages)
  {
    pages := [];
    var embed := Page(title, []);
    var fieldCount := 0;
    assert Flatten([embed]) == [];
    for i := 0 to |lines|
      // sending `embed` now would paginate the lines seen so far
      invariant Paginated(title, lines[..i], pages + [embed])
      invariant embed.title == title && fieldCount == |embed.fields|
    {
      var line := lines[i];
      var lineLength := |line.title| + |line.body|;
      assert lines[..i + 1] == lines[..i] + [line];
      if lineLength + EmbedLength(embed) >= MaxEmbedLength || fieldCount >= MaxFields {
        StartNewPage(title, lines[..i], pages, embed, line);
        pages := pages + [embed];
        embed := Page(title, []);
        fieldCount := 0;
        assert Page(title, embed.fields + [line]) == Page(title, [line]);
      } else {
        AddToLastPage(title, lines[..i], pages, embed, line);
      }
      embed := embed.(fields := embed.fields + [line]);
      fieldCount := fieldCount + 1;
    }
    assert lines[..|lines|] == lines;
    pages := pages + [embed];
  }

  lemma {:induction false} FlattenCons(page: Page, pages: seq<Page>)
    ensures Flatten([page] + pages) == page.fields + Flatten(pages)
    decreases |pages|
  {
    if pages != [] {
      var init := pages[..|pages| - 1];
      assert ([page] + pages)[..|pages|] == [page] + init;
      FlattenCons(page, init);
    } else {
      assert [page] == [] + [page];
      FlattenAppend([], page);
    }
  }

  /** A page's first fields weigh no more than all of them. */
  lemma {:induction false} FieldsLengthPrefix(fields: seq<DisplayLine>, m: nat)
    requires m <= |fields|
    ensures FieldsLength(fields[..m]) <= FieldsLength(fields)
    decreases |fields|
  {
    if m < |fields| {
      FieldsLengthPrefix(fields[..|fields| - 1], m);
      assert fields[..|fields| - 1][..m] == fields[..m];
    } else {
      assert fields[..m] == fields;
    }
  }

  /** One field of a page weighs no more than all of them. */
  lemma {:induction false} FieldsLengthAtLeastLine(fields: seq<DisplayLine>, j: nat)
    requires j < |fields|
    ensures LineLength(fields[j]) <= FieldsLength(fields)
    decreases |fields|
  {
    if j < |fields| - 1 {
      FieldsLengthAtLeastLine(fields[..|fields| - 1], j);
    }
  }

  /** Empty input yields exactly one page, with the title and no field: a
      reply is sent even when nothing matches. */
  lemma EmptyInputOnePage(title: string, pages: seq<Page>)
    requires Paginated(title, [], pages)
    ensures pages == [Page(title, [])]
  {
    FlattenCons(pages[0], pages[1..]);
    assert pages == [pages[0]] + pages[1..];
  }

  /** At most 25 lines per page: `n` lines need at least n/25 pages,
      rounded up. */
  lemma {:induction false} PagesNeeded(title: string, pages: seq<Page>)
    requires forall k :: 0 <= k < |pages| ==> PageFits(title, pages[k])
    ensures |Flatten(pages)| <= MaxFields * |pages|
    decreases |pages|
  {
    if pages != [] {
      PagesNeeded(title, pages[..|pages| - 1]);
      assert PageFits(title, pages[|pages| - 1]);
    }
  }

  lemma PageCountLowerBound(title: string, lines: seq<DisplayLine>, pages: seq<Page>)
    requires Paginated(title, lines, pages)
    ensures |lines| <= MaxFields * |pages|
  {
    PagesNeeded(title, pages);
  }

  /** A line too long to share a page is never split nor dropped: it is
      sent alone on a page of its own. */
  lemma OversizedLineAlone(title: string, lines: seq<DisplayLine>, pages: seq<Page>, k: nat, j: nat)
    requires Paginated(title, lines, pages)
    requires k < |pages| && j < |pages[k].fields|
    requires Oversized(title, pages[k].fields[j])
    ensures pages[k].fields == [pages[k].fields[j]]
  {
    FieldsLengthAtLeastLine(pages[k].fields, j);
    assert PageFits(title, pages[k]);
  }

  /** The pages that follow a page already sent: each respects the limits,
      none is empty, and each was started only because its first line did not
      fit on the one before. */
  predicate Continues(title: string, lines: seq<DisplayLine>, pages: seq<Page>)
  {
    && Flatten(pages) == lines
    && (forall k :: 0 <= k < |pages| ==> PageFits(title, pages[k]) && pages[k].fields != [])
    && (forall k :: 0 <= k < |pages| - 1 ==> FlushedBefore(pages[k], pages[k + 1]))
  }

  /** Of two candidate first pages over the same lines, the one sent for lack
      of room cannot be shorter than another one that respects the limits. */
  lemma {:induction false} FirstPageNotShorter(title: string, lines: seq<DisplayLine>, p: seq<Page>, q: seq<Page>)
    requires p != [] && q != []
    requires Flatten(p) == lines && Flatten(q) == lines
    requires PageFits(title, p[0]) && PageFits(title, q[0])
    requires |p| > 1 ==> FlushedBefore(p[0], p[1])
    requires p[0].fields == [] ==> q[0].fields == []
    ensures |p[0].fields| >= |q[0].fields|
  {
    var m, n := |p[0].fields|, |q[0].fields|;
    if m < n {
      assert m > 0;
      HeadPage(lines, p);
      HeadPage(lines, q);
      SecondPageStart(lines, p);
      assert p[0] == Page(title, lines[..m]) && q[0] == Page(title, lines[..n]);
      LongerPageFits(title, lines, m, n);
    }
  }

  /** If the first `n` lines fit on one page, then after any `m < n` of them
      (at least one) the next line still fits: nothing forces a page break
      before line `m`. */
  lemma LongerPageFits(title: string, lines: seq<DisplayLine>, m: nat, n: nat)
    requires 0 < m < n <= |lines|
    requires PageFits(title, Page(title, lines[..n]))
    ensures EmbedLength(Page(title, lines[..m])) + LineLength(lines[m]) < MaxEmbedLength
    ensures m < MaxFields
  {
    assert lines[..m + 1] == lines[..m] + [lines[m]];
    FieldsLengthAppend(lines[..m], lines[m]);
    assert lines[..n][..m + 1] == lines[..m + 1];
    FieldsLengthPrefix(lines[..n], m + 1);
  }

  /** The first page holds the first lines. */
  lemma HeadPage(lines: seq<DisplayLine>, pages: seq<Page>)
    requires pages != [] && Flatten(pages) == lines
    ensures |pages[0].fields| <= |lines| && pages[0].fields == lines[..|pages[0].fields|]
    ensures Flatten(pages[1..]) == lines[|pages[0].fields|..]
  {
    FlattenCons(pages[0], pages[1..]);
    assert pages == [pages[0]] + pages[1..];
  }

  /** When the first page does not hold all lines, a second page starts with
      the next one. */
  lemma SecondPageStart(lines: seq<DisplayLine>, pages: seq<Page>)
    requires pages != [] && Flatten(pages) == lines
    requires |pages[0].fields| < |lines|
    requires |pages| > 1 ==> pages[1].fields != []
    ensures |pages| > 1 && pages[1].fields != [] && pages[1].fields[0] == lines[|pages[0].fields|]
  {
    HeadPage(lines, pages);
    if |pages| > 1 {
      HeadPage(lines[|pages[0].fields|..], pages[1..]);
      assert pages[1..][0] == pages[1];
    }
  }

  lemma ContinuesTail(title: string, lines: seq<DisplayLine>, pages: seq<Page>)
    requires pages != [] && Flatten(pages) == lines
    requires forall k :: 1 <= k < |pages| ==> PageFits(title, pages[k])
    requires forall k :: 0 <= k < |pages| - 1 ==> FlushedBefore(pages[k], pages[k + 1])
    ensures |pages[0].fields| <= |lines| && lines[..|pages[0].fields|] == pages[0].fields
    ensures Continues(title, lines[|pages[0].fields|..], pages[1..])
  {
    FlattenCons(pages[0], pages[1..]);
    assert pages == [pages[0]] + pages[1..];
    var tail := pages[1..];
    forall k | 0 <= k < |tail|
      ensures PageFits(title, tail[k]) && tail[k].fields != []
    {
      assert tail[k] == pages[k + 1];
      assert FlushedBefore(pages[k], pages[k + 1]);
    }
    forall k | 0 <= k < |tail| - 1
      ensures FlushedBefore(tail[k], tail[k + 1])
    {
      assert tail[k] == pages[k + 1] && tail[k + 1] == pages[k + 2];
    }
  }

  lemma {:induction false} ContinuesUnique(title: string, lines: seq<DisplayLine>, p: seq<Page>, q: seq<Page>)
    requires Continues(title, lines, p) && Continues(title, lines, q)
    ensures p == q
    decreases |lines|
  {
    if p != [] && q != [] {
      FirstPageNotShorter(title, lines, p, q);
      FirstPageNotShorter(title, lines, q, p);
      ContinuesTail(title, lines, p);
      ContinuesTail(title, lines, q);
      var m := |p[0].fields|;
      assert p[0] == q[0];
      ContinuesUnique(title, lines[m..], p[1..], q[1..]);
      assert p == [p[0]] + p[1..] && q == [q[0]] + q[1..];
    }
  }

  /** The properties of `Paginated` leave no freedom: for given lines there
      is exactly one way to page them, the one `Pack` sends. */
  lemma PaginationUnique(title: string, lines: seq<DisplayLine>, p: seq<Page>, q: seq<Page>)
    requires Paginated(title, lines, p) && Paginated(title, lines, q)
    ensures p == q
  {
    FirstPageNotShorter(title, lines, p, q);
    FirstPageNotShorter(title, lines, q, p);
    ContinuesTail(title, lines, p);
    ContinuesTail(title, lines, q);
    var m := |p[0].fields|;
    assert p[0] == q[0];
    ContinuesUnique(title, lines[m..], p[1..], q[1..]);
    assert p == [p[0]] + p[1..] && q == [q[0]] + q[1..];
  }

  /** `send_puzzles`: format every record, sort the lines, page them. */
  method SendPuzzles(puzzles: seq<PuzzleRecord>, title: string) returns (pages: seq<Page>)
    ensures Paginated(title, SortLines(FormatAll(puzzles)), pages)
    ensures Sorted(Flatten(pages))
    ensures multiset(Flatten(pages)) == multiset(FormatAll(puzzles))
  {
    var linesWithTitles: seq<DisplayLine> := [];
    for i := 0 to |puzzles|
      invariant |linesWithTitles| == i
      invariant forall k :: 0 <= k < i ==> linesWithTitles[k] == FormatLine(puzzles[k])
    {
      linesWithTitles := linesWithTitles + [FormatLine(puzzles[i])];
    }
    assert linesWithTitles == FormatAll(puzzles);
    linesWithTitles := SortLines(linesWithTitles);
    pages := Pack(title, linesWithTitles);
  }
}
