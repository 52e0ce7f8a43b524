/**
 * The `Todos` component's own state and callbacks: the query cache cell for
 * the `['todos']` key, whether it has been invalidated, and the fetch-call
 * counter; `queryFn`, the page fetch the infinite query performs, and the
 * mutation's `onMutate`, `onError` and `onSettled` callbacks.
 */
module Todos {
  import opened Wrappers
  import opened MockApi
  import opened Pagination
  import opened Optimistic

  /** What `onMutate` returns and the library hands back to `onError`: `{ previousTodos }`. */
  datatype MutationContext = MutationContext(previousTodos: Option<InfiniteData>)

  class TodoCache {
    /** The cached value of the `['todos']` query; `None` before the first fetch. */
    var data: Option<InfiniteData>
    /** Set once `invalidateQueries` has marked the cached value stale. */
    var stale: bool
    /** The `callCount` state: how many times `queryFn` has run. */
    var callCount: nat

    ghost predicate Valid()
      reads this
    {
      data.Some? ==> WellFormed(data.value)
    }

    constructor ()
      ensures Valid()
      ensures data == None && !stale && callCount == 0
    {
      data := None;
      stale := false;
      callCount := 0;
    }

    /** `queryFn`: counts the call, then runs `getTodos` with the page parameter. */
    method QueryFn(pageParam: int) returns (page: seq<Todo>)
      modifies this`callCount
      ensures callCount == old(callCount) + 1
      ensures page == Page(pageParam)
    {
      callCount := callCount + 1;
      page := GetTodos(pageParam);
    }

    /**
     * One page fetch of the infinite query: the first uses `initialPageParam`,
     * later ones `getNextPageParam` of the last page; the page is appended.
     */
    method FetchPage()
      requires Valid()
      modifies this`data, this`callCount
      ensures Valid()
      ensures data == Some(FetchNext(old(data)))
      ensures callCount == old(callCount) + 1
    {
      match data
      case None =>
        var page := QueryFn(InitialPageParam);
        data := Some(InfiniteData([page], [InitialPageParam]));
      case Some(d) =>
        var param := NextPageParam(d.pages[|d.pages| - 1]);
        var page := QueryFn(param);
        data := Some(InfiniteData(d.pages + [page], d.pageParams + [param]));
    }

    /** `setQueryData` with a value: `undefined` leaves the cached value as it was. */
    method SetQueryData(value: Option<InfiniteData>)
      requires Valid()
      requires value.Some? ==> WellFormed(value.value)
      modifies this`data
      ensures Valid()
      ensures data == if value.Some? then value else old(data)
    {
      if value.Some? {
        data := value;
      }
    }

    /** `onMutate`: snapshot the cached value, then apply the optimistic insert. */
    method OnMutate(newTodo: Todo) returns (context: MutationContext)
      requires Valid()
      modifies this`data
      ensures Valid()
      ensures context == MutationContext(old(data))
      ensures data == OptimisticInsert(old(data), newTodo)
    {
      var previousTodos := data;
      if data.Some? {
        InsertKeepsWellFormed(data.value, newTodo);
      }
      SetQueryData(OptimisticInsert(data, newTodo));
      context := MutationContext(previousTodos);
    }

    /** `onError`: when there is a context, put its snapshot back. */
    method OnError(context: Option<MutationContext>)
      requires Valid()
      requires context.Some? && context.value.previousTodos.Some? ==> WellFormed(context.value.previousTodos.value)
      modifies this`data
      ensures Valid()
      ensures context.Some? && context.value.previousTodos.Some? ==> data == context.value.previousTodos
      ensures context.None? || context.value.previousTodos.None? ==> data == old(data)
    {
      if context.Some? {
        SetQueryData(context.value.previousTodos);
      }
    }

    /** `onSettled`: invalidate the `['todos']` query, whatever the outcome. */
    method OnSettled()
      modifies this`stale
      ensures stale
    {
      stale := true;
    }

    /**
     * One mutation, callbacks in the order the library runs them: `onMutate`,
     * then `postTodo`, then `onError` if it rejected, then `onSettled`.
     * A rejected post leaves exactly the value cached before the mutation;
     * an accepted one leaves the optimistic insert in place. Either way the
     * query ends stale and no fetch is counted.
     */
    method Mutate(newTodo: Todo) returns (outcome: Result<Todo, PostError>)
      requires Valid()
      modifies this`data, this`stale
      ensures Valid()
      ensures outcome == PostTodo(newTodo)
      ensures outcome.Success? ==> data == OptimisticInsert(old(data), newTodo)
      ensures outcome.Failure? ==> data == old(data)
      ensures stale
      ensures callCount == old(callCount)
    {
      var context := OnMutate(newTodo);
      outcome := PostTodo(newTodo);
      if outcome.Failure? {
        OnError(Some(context));
      }
      OnSettled();
    }
  }

  /**
   * The demo run: the first fetch shows todos 1..5, the next one 6..10, two
   * fetches are counted; a failing todo is shown and then rolled back, a
   * succeeding one stays at the head of the list.
   */
  method DemoRun(now: int)
  {
    var cache := new TodoCache();
    cache.FetchPage();
    cache.FetchPage();
    FetchedList(2);
    assert cache.data == Fetched(2);
    assert Flatten(cache.data.value.pages) == Items(1, 10);
    assert cache.callCount == 2;

    var before := cache.data;
    var failing := Todo(now, "Do Laundry(failure)", Some(true));
    var outcome := cache.Mutate(failing);
    assert outcome.Failure?;
    assert cache.data == before && cache.stale;

    var succeeding := Todo(now, "Do Laundry", None);
    outcome := cache.Mutate(succeeding);
    assert outcome == Success(succeeding);
    InsertShowsAtHead(before.value, succeeding);
    assert Flatten(cache.data.value.pages)[0] == succeeding;
    assert Flatten(cache.data.value.pages)[1..] == Items(1, 10);
    assert cache.callCount == 2;
  }
}
