/**
 * The updater `onMutate` hands to `setQueryData`: absent data stays absent;
 * otherwise the new todo is put in front of the first page and every other
 * page, and the page parameters, are kept.
 */
module Optimistic {
  import opened Wrappers
  import opened MockApi
  import opened Pagination

  function OptimisticInsert(cached: Option<InfiniteData>, newTodo: Todo): (r: Option<InfiniteData>)
    ensures r.None? <==> cached.None?
    ensures cached.Some? ==> r.value.pageParams == cached.value.pageParams
    ensures cached.Some? ==> |r.value.pages| == |cached.value.pages|
    ensures cached.Some? ==> forall i :: 1 <= i < |cached.value.pages| ==> r.value.pages[i] == cached.value.pages[i]
    ensures cached.Some? && |cached.value.pages| > 0 ==> r.value.pages[0] == [newTodo] + cached.value.pages[0]
  {
    match cached
    case None => None
    case Some(d) =>
      Some(d.(pages := seq(|d.pages|, pageIndex requires 0 <= pageIndex < |d.pages| =>
        if pageIndex == 0 then [newTodo] + d.pages[pageIndex] else d.pages[pageIndex])))
  }

  /**
   * On data with at least one page the rendered list gains the new todo at its
   * head and is otherwise the list rendered before.
   */
  lemma InsertShowsAtHead(d: InfiniteData, newTodo: Todo)
    requires |d.pages| > 0
    ensures |Flatten(OptimisticInsert(Some(d), newTodo).value.pages)| == |Flatten(d.pages)| + 1
    ensures Flatten(OptimisticInsert(Some(d), newTodo).value.pages)[0] == newTodo
    ensures Flatten(OptimisticInsert(Some(d), newTodo).value.pages)[1..] == Flatten(d.pages)
  {
    var e := OptimisticInsert(Some(d), newTodo).value;
    assert e.pages[1..] == d.pages[1..];
    assert Flatten(e.pages) == [newTodo] + (d.pages[0] + Flatten(d.pages[1..]));
  }

  /** With no pages at all the insert changes nothing, so the new todo is not shown. */
  lemma InsertWithoutPages(d: InfiniteData, newTodo: Todo)
    requires |d.pages| == 0
    ensures OptimisticInsert(Some(d), newTodo) == Some(d)
  {
    assert OptimisticInsert(Some(d), newTodo).value.pages == d.pages;
  }

  /** The insert keeps a cached value well formed. */
  lemma InsertKeepsWellFormed(d: InfiniteData, newTodo: Todo)
    requires WellFormed(d)
    ensures WellFormed(OptimisticInsert(Some(d), newTodo).value)
  {
  }

  /**
   * The insert does not move the cursor: the next page fetched after an
   * optimistic insert is requested with the parameter it would have had
   * without it, because the last todo of the last page is unchanged.
   */
  lemma InsertKeepsNextPageParam(d: InfiniteData, newTodo: Todo)
    requires WellFormed(d)
    ensures WellFormed(OptimisticInsert(Some(d), newTodo).value)
    ensures var e := OptimisticInsert(Some(d), newTodo).value;
      NextPageParam(e.pages[|e.pages| - 1]) == NextPageParam(d.pages[|d.pages| - 1])
    ensures FetchNext(OptimisticInsert(Some(d), newTodo)).pageParams
         == FetchNext(Some(d)).pageParams
  {
    var e := OptimisticInsert(Some(d), newTodo).value;
    var k := |d.pages| - 1;
    if k == 0 {
      assert e.pages[k] == [newTodo] + d.pages[k];
    }
    assert e.pages[k][|e.pages[k]| - 1] == d.pages[k][|d.pages[k]| - 1];
  }
}
