/** What successive pages add up to. */
module Pages {
  import opened Wrappers
  import opened FindOptions
  import opened Ordering
  import opened Find

  datatype Answer = Answer(total: int, written: Option<seq<Doc>>)

  /** One page under given settings. */
  function PageSettings(s: Settings, offset: nat, size: nat): Settings {
    s.(skip := offset, limit := size)
  }

  /** Offset and Limit after any other options give the page of those options' settings. */
  lemma PageOptions(opts: seq<FindOption>, offset: nat, size: nat)
    requires size > 0
    ensures Fold(opts + [Offset(offset), Limit(size)]) == PageSettings(Fold(opts), offset, size)
  {
    var all := opts + [Offset(offset), Limit(size)];
    assert all[..|all| - 1] == opts + [Offset(offset)];
    assert (opts + [Offset(offset)])[..|opts|] == opts;
  }

  /** Where a page starts. */
  function At(k: nat, size: nat): nat {
    if k == 0 then 0 else At(k - 1, size) + size
  }

  lemma {:induction false} AtIsProduct(k: nat, size: nat)
    ensures At(k, size) == k * size
  {
    if k > 0 {
      AtIsProduct(k - 1, size);
    }
  }

  /** Answers of Find, on one unchanged collection, to pages 0, 1, 2, ... */
  ghost predicate PageAnswers(matches: set<Doc>, s: Settings, size: nat, pages: seq<Answer>) {
    forall k :: 0 <= k < |pages| ==>
      FindAnswers(matches, PageSettings(s, At(k, size), size), pages[k].total, pages[k].written)
  }

  /** All the pages up to the end. */
  ghost predicate AllPages(matches: set<Doc>, s: Settings, size: nat, pages: seq<Answer>) {
    At(|pages|, size) >= |matches| && PageAnswers(matches, s, size, pages)
  }

  function Concat(pages: seq<Answer>): seq<Doc> {
    if pages == [] then [] else Concat(pages[..|pages| - 1]) + Written(pages[|pages| - 1].written)
  }

  function Least(a: nat, b: nat): nat { if a <= b then a else b }

  lemma PageIsSlice(order: seq<Doc>, matches: set<Doc>, s: Settings, offset: nat, size: nat, page: Answer)
    requires size > 0 && Listing(order, matches, SortOf(s)) && NoTies(matches, SortOf(s))
    requires FindAnswers(matches, PageSettings(s, offset, size), page.total, page.written)
    ensures var lo, hi := Least(offset, |order|), Least(offset + size, |order|);
            Written(page.written) == Projected(s.projection, order[lo..hi])
  {
    ListingSize(order, matches, SortOf(s));
    if page.written.Some? {
      var order': seq<Doc> :| Listing(order', matches, SortOf(s))
                    && page.written.value == Projected(s.projection, Page(order', offset, size));
      ListingUnique(order, order', matches, SortOf(s));
      var lo, hi := Least(offset, |order|), Least(offset + size, |order|);
      assert Page(order, offset, size) == order[lo..hi];
    }
  }

  lemma ProjectedConcat(projection: Option<set<string>>, order: seq<Doc>, lo: nat, hi: nat)
    requires lo <= hi <= |order|
    ensures Projected(projection, order[..lo]) + Projected(projection, order[lo..hi])
            == Projected(projection, order[..hi])
  {
  }

  lemma {:induction false} PagesAreAPrefix(
    order: seq<Doc>, matches: set<Doc>, s: Settings, size: nat, pages: seq<Answer>)
    requires size > 0 && Listing(order, matches, SortOf(s)) && NoTies(matches, SortOf(s))
    requires PageAnswers(matches, s, size, pages)
    ensures Concat(pages) == Projected(s.projection, order[..Least(At(|pages|, size), |order|)])
  {
    if pages != [] {
      hide FindAnswers, Listing, NoTies, Projected, SortOf, Page, PageSettings;
      var k := |pages| - 1;
      var lo, hi := Least(At(k, size), |order|), Least(At(k, size) + size, |order|);
      assert At(|pages|, size) == At(k, size) + size;
      assert PageAnswers(matches, s, size, pages[..k]);
      PagesAreAPrefix(order, matches, s, size, pages[..k]);
      PageIsSlice(order, matches, s, At(k, size), size, pages[k]);
      ProjectedConcat(s.projection, order, lo, hi);
    }
  }

  /** Without ties, the pages partition the result: in order, no gap, no repeat, one total. */
  lemma PagesPartition(matches: set<Doc>, s: Settings, size: nat, pages: seq<Answer>)
    requires size > 0 && NoTies(matches, SortOf(s)) && AllPages(matches, s, size, pages)
    ensures forall order :: Listing(order, matches, SortOf(s)) ==> Concat(pages) == Projected(s.projection, order)
    ensures forall k :: 0 <= k < |pages| ==> pages[k].total == |matches|
  {
    forall order | Listing(order, matches, SortOf(s))
      ensures Concat(pages) == Projected(s.projection, order)
    {
      PagesAreAPrefix(order, matches, s, size, pages);
      ListingSize(order, matches, SortOf(s));
      assert order[..|order|] == order;
    }
    forall k | 0 <= k < |pages|
      ensures pages[k].total == |matches|
    {
      assert FindAnswers(matches, PageSettings(s, At(k, size), size), pages[k].total, pages[k].written);
    }
  }

  lemma DefaultSortHasNoTies(docs: map<int, map<string, int>>, filter: Filter)
    ensures NoTies(Matches(docs, filter), BY_ID)
  {
    forall a, b | a in Matches(docs, filter) && b in Matches(docs, filter) && Leq(BY_ID, a, b) && Leq(BY_ID, b, a)
      ensures a == b
    {
      ByIdOrder(a, b);
      ByIdOrder(b, a);
    }
  }

  /**
   * With the default sort, Find over Offset(0), Offset(n), Offset(2n), ... with Limit(n) gives the
   * matches of any collection in ascending order of _id, each once, and every page reports their number.
   */
  lemma DefaultPagesPartition(
    docs: map<int, map<string, int>>, filter: Filter, opts: seq<FindOption>, n: nat, pages: seq<Answer>)
    requires n > 0 && Fold(opts).sort.None? && Fold(opts).projection.None?
    requires |pages| * n >= |Matches(docs, filter)|
    requires forall k :: 0 <= k < |pages| ==>
               FindAnswers(Matches(docs, filter), Fold(opts + [Offset(k * n), Limit(n)]),
                           pages[k].total, pages[k].written)
    ensures var all := Concat(pages);
            && (forall i, j :: 0 <= i < j < |all| ==> all[i].id < all[j].id)
            && (forall d :: d in all <==> d.id in docs && docs[d.id] == d.fields && filter(d))
    ensures forall k :: 0 <= k < |pages| ==> pages[k].total == |Concat(pages)|
  {
    var matches := Matches(docs, filter);
    AtIsProduct(|pages|, n);
    forall k | 0 <= k < |pages|
      ensures FindAnswers(matches, PageSettings(Fold(opts), At(k, n), n), pages[k].total, pages[k].written)
    {
      AtIsProduct(k, n);
      PageOptions(opts, k * n, n);
    }
    DefaultSortHasNoTies(docs, filter);
    PagesPartition(matches, Fold(opts), n, pages);
    ListingExists(matches, BY_ID);
    var order: seq<Doc> :| Listing(order, matches, BY_ID);
    ListingSize(order, matches, BY_ID);
    assert Projected(None, order) == order;
    ListingAscends(order, docs, filter);
  }

  lemma ListingAscends(order: seq<Doc>, docs: map<int, map<string, int>>, filter: Filter)
    requires Listing(order, Matches(docs, filter), BY_ID)
    ensures forall i, j :: 0 <= i < j < |order| ==> order[i].id < order[j].id
  {
    forall i, j | 0 <= i < j < |order|
      ensures order[i].id < order[j].id
    {
      ByIdOrder(order[i], order[j]);
      assert order[i] in Matches(docs, filter) && order[j] in Matches(docs, filter);
    }
  }

  // ---------------------------------------------------------------------------------------
  // Ties

  /** Pages of size 1, all taken from one listing but for page j, which comes from another. */
  function OneByOne(order: seq<Doc>, j: nat, d: Doc): seq<Answer> {
    seq(|order|, k requires 0 <= k < |order| => Answer(|order|, Some([if k == j then d else order[k]])))
  }

  lemma {:induction false} ConcatOneByOne(order: seq<Doc>, j: nat, d: Doc, n: nat)
    requires n <= |order|
    ensures |Concat(OneByOne(order, j, d)[..n])| == n
    ensures forall k :: 0 <= k < n ==> Concat(OneByOne(order, j, d)[..n])[k] == if k == j then d else order[k]
  {
    if n > 0 {
      var pages := OneByOne(order, j, d);
      assert pages[..n][..n - 1] == pages[..n - 1];
      ConcatOneByOne(order, j, d, n - 1);
    }
  }

  lemma OneAnswer(order: seq<Doc>, matches: set<Doc>, s: Settings, k: nat)
    requires Listing(order, matches, SortOf(s)) && k < |order| && s.projection.None?
    ensures FindAnswers(matches, PageSettings(s, k, 1), |order|, Some([order[k]]))
  {
    ListingSize(order, matches, SortOf(s));
    assert [order[k]] == Page(order, k, 1) == Projected(None, Page(order, k, 1));
  }

  lemma OneByOneAnswers(order: seq<Doc>, matches: set<Doc>, s: Settings, i: nat, j: nat)
    requires Listing(order, matches, SortOf(s)) && i < j < |order|
    requires Leq(SortOf(s), order[j], order[i]) && s.projection.None?
    ensures AllPages(matches, s, 1, OneByOne(order, j, order[i]))
  {
    TiedCanSwap(order, matches, SortOf(s), i, j);
    ListingSize(order, matches, SortOf(s));
    AtIsProduct(|order|, 1);
    var swapped := order[i := order[j]][j := order[i]];
    forall k: nat | k < |order|
      ensures var page := OneByOne(order, j, order[i])[k];
              FindAnswers(matches, PageSettings(s, At(k, 1), 1), page.total, page.written)
    {
      AtIsProduct(k, 1);
      OneAnswer(if k == j then swapped else order, matches, s, k);
    }
  }

  /** Every way of paging lists the matches. */
  ghost predicate PagingLists(matches: set<Doc>, s: Settings) {
    forall size: nat, pages :: size > 0 && AllPages(matches, s, size, pages) ==>
      Listing(Concat(pages), matches, SortOf(s))
  }

  lemma TieBreaksPaging(order: seq<Doc>, matches: set<Doc>, s: Settings, i: nat, j: nat)
    requires Listing(order, matches, SortOf(s)) && i < j < |order|
    requires Leq(SortOf(s), order[j], order[i]) && s.projection.None?
    ensures !PagingLists(matches, s)
  {
    OneByOneAnswers(order, matches, s, i, j);
    var pages := OneByOne(order, j, order[i]);
    ConcatOneByOne(order, j, order[i], |order|);
    assert pages[..|order|] == pages;
    assert Concat(pages)[i] == Concat(pages)[j];
    assert !Distinct(Concat(pages));
  }

  lemma TiesBreakPaging(matches: set<Doc>, s: Settings, a: Doc, b: Doc)
    requires a in matches && b in matches && a != b && Leq(SortOf(s), a, b) && Leq(SortOf(s), b, a)
    requires s.projection.None?
    ensures !PagingLists(matches, s)
  {
    ListingExists(matches, SortOf(s));
    var order: seq<Doc> :| Listing(order, matches, SortOf(s));
    assert a in order && b in order;
    hide Listing, Leq, PagingLists, SortOf;
    var p: nat :| p < |order| && order[p] == a;
    var q: nat :| q < |order| && order[q] == b;
    if p < q {
      TieBreaksPaging(order, matches, s, p, q);
    } else {
      TieBreaksPaging(order, matches, s, q, p);
    }
  }

  /** Paging under a sort is right for every choice the server may make exactly when the sort leaves no ties. */
  lemma PagingNeedsNoTies(matches: set<Doc>, s: Settings)
    requires s.projection.None?
    ensures PagingLists(matches, s) <==> NoTies(matches, SortOf(s))
  {
    if NoTies(matches, SortOf(s)) {
      ListingExists(matches, SortOf(s));
      var order: seq<Doc> :| Listing(order, matches, SortOf(s));
      forall size: nat, pages | size > 0 && AllPages(matches, s, size, pages)
        ensures Listing(Concat(pages), matches, SortOf(s))
      {
        PagesPartition(matches, s, size, pages);
        assert Projected(None, order) == order;
      }
    } else {
      var a, b :| a in matches && b in matches && Leq(SortOf(s), a, b) && Leq(SortOf(s), b, a) && a != b;
      TiesBreakPaging(matches, s, a, b);
    }
  }
}
