/** One-based page windows, as both read services compute them: skip
    `(page - 1) * limit` items, then take at most `limit`. */
module Pagination {
  import opened Football

  type Positive = x: int | x >= 1 witness 1

  const DefaultPage: Positive := 1
  const DefaultLimit: Positive := 12

  /** The page number a request asks for, or the default when it gives none. */
  function PageOr(page: Option<Positive>): Positive
  {
    if page.Some? then page.value else DefaultPage
  }

  /** The limit a request asks for, or the default when it gives none. */
  function LimitOr(limit: Option<Positive>): Positive
  {
    if limit.Some? then limit.value else DefaultLimit
  }

  /** The number of items on the pages before page `page`, `limit` to a page. */
  function Start(page: Positive, limit: Positive): nat
    decreases page
  {
    if page == 1 then 0 else Start(page - 1, limit) + limit
  }

  /** That number is the offset `(page - 1) * limit` both services skip. */
  lemma {:induction false} StartIsOffset(page: Positive, limit: Positive)
    ensures Start(page, limit) == (page - 1) * limit
    decreases page
  {
    if page > 1 {
      StartIsOffset(page - 1, limit);
    }
  }

  /** `r` is page `page` of `s`: the items of `s` from the offset
      `Start(page, limit)` on, in order, `limit` of them, or fewer only where `s`
      ends first. */
  ghost predicate IsWindow<T>(r: seq<T>, s: seq<T>, page: Positive, limit: Positive)
  {
    var start := Start(page, limit);
    && |r| == (if |s| <= start then 0 else if |s| - start < limit then |s| - start else limit)
    && forall k :: 0 <= k < |r| ==> start + k < |s| && r[k] == s[start + k]
  }

  /** Page `page` of `s` when every page holds `limit` items: the contiguous
      window of `s` that starts at `Start(page, limit)`, cut short by the end
      of `s`. */
  function Page<T>(s: seq<T>, page: Positive, limit: Positive): (r: seq<T>)
    ensures |r| <= limit
    ensures IsWindow(r, s, page, limit)
  {
    var start := Start(page, limit);
    if start >= |s| then []
    else if start + limit <= |s| then s[start..start + limit]
    else s[start..]
  }

  /** Every item of a page is an item of the list. */
  lemma PageIsWithinList<T>(s: seq<T>, page: Positive, limit: Positive)
    ensures forall x :: x in Page(s, page, limit) ==> x in s
  {
    var r := Page(s, page, limit);
    forall x | x in r
      ensures x in s
    {
      var k :| 0 <= k < |r| && r[k] == x;
      assert s[Start(page, limit) + k] == x;
    }
  }

  /** Pages 1 to `n`, one after the other. */
  function FirstPages<T>(s: seq<T>, limit: Positive, n: nat): seq<T>
  {
    if n == 0 then [] else FirstPages(s, limit, n - 1) + Page(s, n, limit)
  }

  /** Reading the pages in order gives back the list: pages 1 to `n` are exactly
      the items before page `n + 1` (all of them once those reach the end), so
      every item is on exactly one page and in its place. */
  lemma {:induction false} PagesPartitionTheList<T>(s: seq<T>, limit: Positive, n: nat)
    ensures Start(n + 1, limit) <= |s| ==> FirstPages(s, limit, n) == s[..Start(n + 1, limit)]
    ensures Start(n + 1, limit) > |s| ==> FirstPages(s, limit, n) == s
  {
    if n > 0 {
      PagesPartitionTheList(s, limit, n - 1);
      PageContinuesPrefix(s, limit, n);
    }
  }

  /** Page `n` holds the items from `Start(n, limit)` up to the start of page
      `n + 1`, or to the end of `s`. */
  lemma PageContinuesPrefix<T>(s: seq<T>, limit: Positive, n: Positive)
    ensures Start(n, limit) <= |s| ==>
      s[..Start(n, limit)] + Page(s, n, limit) == if Start(n + 1, limit) <= |s| then s[..Start(n + 1, limit)] else s
    ensures Start(n, limit) > |s| ==> Page(s, n, limit) == []
  {
    var start := Start(n, limit);
    var end := Start(n + 1, limit);
    if start < |s| && end <= |s| {
      assert s[..start] + s[start..end] == s[..end];
    } else if start < |s| {
      assert s[..start] + s[start..] == s;
    } else if start == |s| {
      assert s[..start] == s;
    }
  }

  /** A worked example, 12 to a page: of 25 items, page 1 holds the first twelve,
      page 3 holds the last one and page 4 is empty. */
  lemma TwentyFiveItemsTwelvePerPage<T>(s: seq<T>)
    requires |s| == 25
    ensures Page(s, 1, 12) == s[0..12]
    ensures Page(s, 3, 12) == [s[24]]
    ensures Page(s, 4, 12) == []
  {
  }
}
