/**
 * The infinite query over the `['todos']` key: pages fetched in order, the
 * page parameter each was fetched with, the initial parameter 1 and the
 * `getNextPageParam` rule "id of the last todo on the last page, plus one".
 */
module Pagination {
  import opened Wrappers
  import opened MockApi

  /** The cached value of an infinite query: pages and their page parameters, in fetch order. */
  datatype InfiniteData = InfiniteData(pages: seq<seq<Todo>>, pageParams: seq<int>)

  /** `initialPageParam` */
  const InitialPageParam: int := 1

  /**
   * `getNextPageParam`. The non-null assertion on `lastPage.at(-1)` is the
   * source's demand that the last page is not empty.
   */
  function NextPageParam(lastPage: seq<Todo>): (param: int)
    requires |lastPage| > 0
    ensures param == lastPage[|lastPage| - 1].id + 1
  {
    lastPage[|lastPage| - 1].id + 1
  }

  /** The list the component renders: all pages' todos, concatenated in page order. */
  function Flatten(pages: seq<seq<Todo>>): (list: seq<Todo>)
    ensures forall i, t :: 0 <= i < |pages| && t in pages[i] ==> t in list
    ensures forall t :: t in list ==> exists i :: 0 <= i < |pages| && t in pages[i]
  {
    if |pages| == 0 then [] else pages[0] + Flatten(pages[1..])
  }

  /**
   * The shape every cached value has: at least one page, one parameter per
   * page, and no empty page, so `getNextPageParam` can always be called.
   */
  predicate WellFormed(d: InfiniteData) {
    && |d.pages| >= 1
    && |d.pages| == |d.pageParams|
    && forall i :: 0 <= i < |d.pages| ==> |d.pages[i]| > 0
  }

  /** The page after page `c` is requested with parameter `c + 5`. */
  lemma NextAfterPage(pageParam: int)
    ensures NextPageParam(Page(pageParam)) == pageParam + PageSize
  {
    PageShape(pageParam);
  }

  lemma {:induction false} FlattenAppend(pages: seq<seq<Todo>>, page: seq<Todo>)
    ensures Flatten(pages + [page]) == Flatten(pages) + page
    decreases |pages|
  {
    if |pages| == 0 {
      assert pages + [page] == [page];
    } else {
      assert (pages + [page])[1..] == pages[1..] + [page];
      FlattenAppend(pages[1..], page);
    }
  }

  /**
   * One page fetch as the infinite query performs it: with nothing cached the
   * initial parameter is used; otherwise `getNextPageParam` of the last page.
   * The fetched page and its parameter are appended.
   */
  function FetchNext(cached: Option<InfiniteData>): (r: InfiniteData)
    requires cached.Some? ==> WellFormed(cached.value)
    ensures WellFormed(r)
    ensures |r.pages| == (if cached.Some? then |cached.value.pages| else 0) + 1
    ensures cached.Some? ==> r.pages[..|cached.value.pages|] == cached.value.pages
    ensures cached.Some? ==> r.pageParams[..|cached.value.pageParams|] == cached.value.pageParams
    ensures r.pages[|r.pages| - 1] == Page(r.pageParams[|r.pageParams| - 1])
    ensures cached.None? ==> r.pageParams == [InitialPageParam]
    ensures cached.Some? ==> r.pageParams[|r.pageParams| - 1] == NextPageParam(cached.value.pages[|cached.value.pages| - 1])
  {
    match cached
    case None => InfiniteData([Page(InitialPageParam)], [InitialPageParam])
    case Some(d) =>
      var param := NextPageParam(d.pages[|d.pages| - 1]);
      InfiniteData(d.pages + [Page(param)], d.pageParams + [param])
  }

  /** The cached value after `n` fetches starting from an empty cache. */
  function Fetched(n: nat): (r: Option<InfiniteData>)
    ensures r.Some? <==> n > 0
    ensures r.Some? ==> WellFormed(r.value) && |r.value.pages| == n
  {
    if n == 0 then None else Some(FetchNext(Fetched(n - 1)))
  }

  /** Page parameter of the k-th page fetched from the initial parameter. */
  function ParamOfPage(k: nat): (param: int) {
    InitialPageParam + PageSize * k
  }

  /** The n-th fetch from an empty cache uses page parameter 1 + 5(n - 1). */
  lemma {:induction false} LastFetchedParam(n: nat)
    requires n > 0
    ensures Fetched(n).value.pageParams[n - 1] == ParamOfPage(n - 1)
  {
    if n > 1 {
      LastFetchedParam(n - 1);
      var prev := Fetched(n - 1).value;
      assert prev.pages[n - 2] == Page(ParamOfPage(n - 2));
      NextAfterPage(ParamOfPage(n - 2));
    }
  }

  /**
   * From the initial parameter 1, the k-th page is fetched with parameter
   * 1 + 5k and is the page generated from it.
   */
  lemma {:induction false} FetchedPages(n: nat)
    requires n > 0
    ensures forall k :: 0 <= k < n ==> Fetched(n).value.pageParams[k] == ParamOfPage(k)
    ensures forall k :: 0 <= k < n ==> Fetched(n).value.pages[k] == Page(ParamOfPage(k))
  {
    LastFetchedParam(n);
    if n > 1 {
      FetchedPages(n - 1);
      var d := Fetched(n).value;
      forall k | 0 <= k < n - 1
        ensures d.pageParams[k] == ParamOfPage(k) && d.pages[k] == Page(ParamOfPage(k))
      {
        assert d.pageParams[k] == d.pageParams[..n - 1][k];
        assert d.pages[k] == d.pages[..n - 1][k];
      }
    }
  }

  /** Appending the next generated page to pages that render a run of todos extends the run. */
  lemma AppendPage(pages: seq<seq<Todo>>, prev: seq<seq<Todo>>, first: int, m: nat, total: nat)
    requires pages == prev + [Page(first + m)]
    requires Flatten(prev) == Items(first, m)
    requires total == m + PageSize
    ensures Flatten(pages) == Items(first, total)
  {
    FlattenAppend(prev, Page(first + m));
    ItemsConcat(first, m, PageSize);
  }

  lemma RunLength(n: nat)
    requires n > 0
    ensures PageSize * n == PageSize * (n - 1) + PageSize
  {
  }

  /** Pages generated from parameters 1, 6, 11, ... render todos 1, 2, 3, ... in order. */
  lemma {:induction false} FlattenGenerated(pages: seq<seq<Todo>>)
    requires forall k :: 0 <= k < |pages| ==> pages[k] == Page(ParamOfPage(k))
    ensures Flatten(pages) == Items(InitialPageParam, PageSize * |pages|)
    decreases |pages|
  {
    var n := |pages|;
    if n == 0 {
      assert Items(InitialPageParam, 0) == [];
    } else {
      var prev := pages[..n - 1];
      FlattenGenerated(prev);
      RunLength(n);
      assert pages == prev + [pages[n - 1]];
      AppendPage(pages, prev, InitialPageParam, PageSize * (n - 1), PageSize * n);
    }
  }

  /** After `n` fetches from an empty cache the rendered list is todos 1 .. 5n, in order. */
  lemma FetchedList(n: nat)
    requires n > 0
    ensures Flatten(Fetched(n).value.pages) == Items(InitialPageParam, PageSize * n)
  {
    FetchedPages(n);
    FlattenGenerated(Fetched(n).value.pages);
  }

  /** The first page holds todos 1..5; the second is requested with 6 and holds 6..10. */
  lemma FirstTwoPages()
    ensures Fetched(2).value.pageParams == [1, 6]
    ensures Fetched(2).value.pages == [Page(1), Page(6)]
    ensures forall i :: 0 <= i < 10 ==> Flatten(Fetched(2).value.pages)[i].id == i + 1
  {
    FetchedPages(2);
    FetchedList(2);
    var f := Flatten(Fetched(2).value.pages);
    forall i | 0 <= i < 10 ensures f[i].id == i + 1 {
      assert f[i] == Items(1, 10)[i];
    }
  }
}
