# react-query-invalidate: the demo's own logic, in Dafny

The repository is a React demo of `@tanstack/react-query`: a list of todos
fetched page by page through an infinite query, a fetch-call counter, and a
mutation that inserts a todo optimistically, rolls it back when the post
fails and invalidates the query when it settles. Almost everything else is
UI and library wiring. This project models what the demo itself computes:

- `MockApi`: the mock endpoints. `getTodos` builds five todos from the page
  parameter with a counter (`GetTodos`, a loop, proved equal to `Page`);
  `postTodo` resolves with its argument or rejects (`PostTodo`).
- `NumberText`: how the template literal `Todo ${id}` renders an integer,
  with an independent parser and the round trip between them, so that "the
  title names the todo's id" is a proved fact rather than a restatement.
- `Pagination`: the infinite query's value (`InfiniteData`: pages and page
  parameters), `initialPageParam` 1, the `getNextPageParam` rule, the
  `flatMap` the component renders (`Flatten`), and the effect of successive
  page fetches from an empty cache, with the closed form "after n fetches
  the list is todos 1 .. 5n".
- `Optimistic`: the updater `onMutate` passes to `setQueryData`.
- `Todos`: class `TodoCache`, the cache cell for `['todos']`, its stale
  flag and `callCount`, with `queryFn`, page fetches, `setQueryData` and the
  three mutation callbacks, and `Mutate`, which runs them in the library's
  order. `DemoRun` replays the demo's clicks against these contracts.

Modelling choices:

- A todo's optional `error` field is `Option<bool>`. `postTodo` tests
  `if (todo.error)`, so only `Some(true)` rejects; `Some(false)` resolves.
- `setQueryData` with an `undefined` value (an updater returning `undefined`,
  or a rollback to an `undefined` snapshot) leaves the cache unchanged in
  TanStack Query; `SetQueryData(None)` does the same.
- The non-null assertion in `getNextPageParam` is a precondition: the last
  page is not empty. The cache invariant `WellFormed` (at least one page, one
  parameter per page, no empty page) holds for every value the component
  caches, so the precondition is always met.
- How the infinite query appends a fetched page and its parameter is the
  library's documented behaviour, written out as `FetchNext`.
- The todo passed to a mutation (built from `Date.now()` in the UI) is a
  parameter.

## Model

| member | source | states |
|---|---|---|
| `NumberText.NatToDecimal` | src/App.tsx:31 | the rendered digits of a non-negative id are non-empty, all decimal digits, and start with `0` only for 0 |
| `NumberText.IntToDecimal` | src/App.tsx:31 | the text of an integer starts with a minus sign exactly when it is negative, and the rest is decimal digits with no leading zero |
| `NumberText.NatDecimalRoundTrip` | src/App.tsx:31 | reading back the digits rendered for a non-negative integer gives that integer |
| `NumberText.IntDecimalRoundTrip` | src/App.tsx:31 | parsing the text rendered for any integer, negative ones included, gives that integer |
| `NumberText.IntToDecimalInjective` | src/App.tsx:31 | distinct ids render to distinct texts |
| `MockApi.TitleNamesId` | src/App.tsx:31 | the title `TitleOf(id)`, that is `Todo ${id}`, read back, names exactly that id |
| `MockApi.Page` | src/App.tsx:31 | the page resolved for parameter c holds 5 todos whose ids are c, c + 1, ..., c + 4 |
| `MockApi.PageShape` | src/App.tsx:29-31 | a page built from parameter c has exactly 5 todos; the i-th has id c + i, title `Todo ${c + i}` and no error flag; ids strictly increase |
| `MockApi.GetTodos` | src/App.tsx:26-34 | the counter loop (id read before `startId++`) yields 5 todos, the i-th with id c + i and title naming c + i, i.e. the page `Page(c)` |
| `MockApi.PostTodo` | src/App.tsx:35-46 | `postTodo` resolves, with the same todo, if and only if its `error` flag is not true; otherwise it rejects with "An error occurred" |
| `Pagination.NextPageParam` | src/App.tsx:70 | the next page parameter is the last todo's id + 1; the last page must be non-empty (the non-null assertion on `at(-1)`) |
| `Pagination.Flatten` | src/App.tsx:141 | a todo is in the rendered list if and only if it is on one of the pages |
| `Pagination.NextAfterPage` | src/App.tsx:70 | the next page parameter after a page fetched with c (last id + 1) is c + 5 |
| `Pagination.FlattenAppend` | src/App.tsx:141 | the rendered list of pages with one page appended is the old list followed by that page |
| `Pagination.FetchNext` | src/App.tsx:63-71 | a page fetch keeps the cache well formed (so `getNextPageParam` is always applicable), adds exactly one page and one parameter, keeps the earlier ones; the new parameter is `initialPageParam` on an empty cache and otherwise `getNextPageParam` of the last page, and the new page is the one generated from it |
| `Pagination.Fetched` | src/App.tsx:63-71 | after n fetches from an empty cache there is data exactly when n > 0, it is well formed and holds n pages |
| `Pagination.LastFetchedParam` | src/App.tsx:69-70 | the n-th fetch from an empty cache uses page parameter 1 + 5(n - 1) |
| `Pagination.FetchedPages` | src/App.tsx:69-70 | after n fetches the k-th page parameter is 1 + 5k and the k-th page is the one generated from it |
| `Pagination.FlattenGenerated` | src/App.tsx:141 | pages generated from parameters 1, 6, 11, ... in order render todos 1, 2, 3, ... in order |
| `Pagination.FetchedList` | src/App.tsx:63-71 | after n fetches from an empty cache the rendered list is exactly todos 1 .. 5n, in order |
| `Pagination.FirstTwoPages` | src/App.tsx:69-70 | the first two pages are fetched with parameters 1 and 6 and render ids 1..10 |
| `Optimistic.OptimisticInsert` | src/App.tsx:86-94 | absent data stays absent; present data keeps its page count, its page parameters and every page from index 1, and page 0 becomes the new todo followed by the old page 0 |
| `Optimistic.InsertShowsAtHead` | src/App.tsx:86-94 | on data with at least one page the rendered list after the insert is one longer, starts with the new todo, and its tail is the list rendered before |
| `Optimistic.InsertWithoutPages` | src/App.tsx:90-92 | on data with no pages the insert changes nothing, so the new todo is not shown |
| `Optimistic.InsertKeepsWellFormed` | src/App.tsx:86-94 | the insert keeps the cache invariant |
| `Optimistic.InsertKeepsNextPageParam` | src/App.tsx:86-94 | the insert leaves the last todo of the last page in place, so the next page fetched after it is requested with the same parameter as without it |
| `Todos.TodoCache.constructor` | src/App.tsx:58 | the cache starts empty, not stale, with `callCount` 0 |
| `Todos.TodoCache.QueryFn` | src/App.tsx:65-68 | each `queryFn` call adds exactly 1 to `callCount` and returns the page generated from its parameter |
| `Todos.TodoCache.FetchPage` | src/App.tsx:63-71 | a page fetch adds exactly 1 to `callCount`, leaves the stale flag alone and sets the cache to `FetchNext` of the old value |
| `Todos.TodoCache.SetQueryData` | src/App.tsx:103 | writing a value replaces the cached value; writing `undefined` leaves it |
| `Todos.TodoCache.OnMutate` | src/App.tsx:77-98 | returns the snapshot of the value cached before, and leaves the optimistic insert of the new todo cached |
| `Todos.TodoCache.OnError` | src/App.tsx:101-105 | with a context holding a snapshot, the snapshot is cached again; without one, nothing changes |
| `Todos.TodoCache.OnSettled` | src/App.tsx:107-109 | the query is marked stale |
| `Todos.TodoCache.Mutate` | src/App.tsx:75-110 | a failing post ends with exactly the value cached before the mutation (rollback undoes the optimistic insert); a succeeding one with the insert in place; either way the query is stale and `callCount` is unchanged |

## Left out

- The three-second `setTimeout` delays, the promises themselves and `console.log` in both endpoints: only the values they settle with are modelled.
- `cancelQueries` before the snapshot: the model is sequential, so there is no in-flight fetch to cancel.
- The refetch that `invalidateQueries` triggers after `onSettled` (and the `queryFn` calls, hence `callCount` increments, it would cause): library behaviour; invalidation is only the `stale` flag, which nothing in the model clears.
- In-flight de-duplication, retries and the `disabled` states of the buttons: library and UI behaviour.
- JSX rendering, React hooks and the provider: UI and framework wiring; the rendered list is modelled as `Flatten`.
- JavaScript numbers are doubles; ids are modelled as unbounded integers, so neither precision loss above 2^53 nor the exponent notation JavaScript uses for integers of 10^21 and more is modelled.
- Todos.TodoCache.OnError: requires a well-formed snapshot, which every snapshot `OnMutate` returns is; contexts built any other way are not modelled.
