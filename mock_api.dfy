/**
 * The two simulated endpoints of the demo: `getTodos`, which builds a page of
 * five todos starting at the requested id, and `postTodo`, which echoes the
 * submitted todo or rejects it when its `error` flag is set. The three-second
 * timers and the console logging are not modelled; only the values the
 * promises settle with are.
 */
module MockApi {
  import opened Wrappers
  import opened NumberText

  /**
   * A todo item. Fetched todos carry no `error` field (`None`); a todo passed
   * to a mutation may carry one, and keeps it when it is inserted into a page.
   */
  datatype Todo = Todo(id: int, title: string, error: Option<bool>)

  /** The error `postTodo` rejects with. */
  datatype PostError = PostError(message: string)

  /** Number of todos in every generated page. */
  const PageSize: nat := 5

  const TitlePrefix: string := "Todo "

  /** The id a title names, if it has the generated form. */
  function IdInTitle(title: string): (r: Option<int>) {
    if |title| >= |TitlePrefix| && title[..|TitlePrefix|] == TitlePrefix
    then ParseInt(title[|TitlePrefix|..])
    else None
  }

  /** The title a generated todo gets, `Todo ${id}`. */
  function TitleOf(id: int): (title: string) {
    TitlePrefix + IntToDecimal(id)
  }

  /** A generated title names exactly the id of its todo. */
  lemma TitleNamesId(id: int)
    ensures IdInTitle(TitleOf(id)) == Some(id)
  {
    IntDecimalRoundTrip(id);
    assert TitleOf(id)[|TitlePrefix|..] == IntToDecimal(id);
  }

  /** The generated todo with a given id. */
  function Item(id: int): (t: Todo) {
    Todo(id, TitleOf(id), None)
  }

  /** The generated todos with ids `first .. first + count - 1`, in order. */
  function Items(first: int, count: nat): (r: seq<Todo>)
    ensures |r| == count && forall i :: 0 <= i < count ==> r[i].id == first + i
  {
    var r := seq(count, i => Item(first + i));
    assert forall i :: 0 <= i < count ==> r[i] == Item(first + i);
    r
  }

  /**
   * The page `getTodos` resolves with for a given page parameter: five todos
   * whose ids count up from the parameter.
   */
  function Page(pageParam: int): (page: seq<Todo>)
    ensures |page| == PageSize
    ensures forall i :: 0 <= i < |page| ==> page[i].id == pageParam + i
  {
    Items(pageParam, PageSize)
  }

  /** Two adjacent runs of generated todos make one run. */
  lemma ItemsConcat(first: int, m: nat, k: nat)
    ensures Items(first, m) + Items(first + m, k) == Items(first, m + k)
  {
    var joined := Items(first, m) + Items(first + m, k);
    forall i | 0 <= i < m + k ensures joined[i] == Items(first, m + k)[i] {
      if i >= m {
        assert joined[i] == Items(first + m, k)[i - m];
      }
    }
  }

  /**
   * A page holds five todos whose ids run consecutively from the page
   * parameter, each titled `Todo ${id}` with its own id and without an error
   * flag.
   */
  lemma PageShape(pageParam: int)
    ensures |Page(pageParam)| == PageSize
    ensures forall i :: 0 <= i < PageSize ==> Page(pageParam)[i].id == pageParam + i
    ensures forall i :: 0 <= i < PageSize ==> Page(pageParam)[i].title == TitleOf(Page(pageParam)[i].id)
    ensures forall i :: 0 <= i < PageSize ==> Page(pageParam)[i].error == None
    ensures forall i, j :: 0 <= i < j < PageSize ==> Page(pageParam)[i].id < Page(pageParam)[j].id
  {
    forall i | 0 <= i < PageSize ensures Page(pageParam)[i] == Item(pageParam + i) {
      assert Page(pageParam)[i] == Items(pageParam, PageSize)[i];
    }
  }

  /**
   * `getTodos`: a counter starts at the page parameter; for each of the five
   * slots the id is read and the title rendered before the counter is
   * incremented, so id and title agree.
   */
  method GetTodos(pageParam: int) returns (page: seq<Todo>)
    ensures |page| == PageSize
    ensures forall i :: 0 <= i < |page| ==> page[i].id == pageParam + i && page[i].title == TitleOf(pageParam + i)
    ensures page == Page(pageParam)
  {
    var startId := pageParam;
    page := [];
    while |page| < PageSize
      invariant |page| <= PageSize
      invariant startId == pageParam + |page|
      invariant forall i :: 0 <= i < |page| ==> page[i] == Item(pageParam + i)
    {
      var id := startId;
      var title := TitleOf(startId);
      startId := startId + 1;
      page := page + [Todo(id, title, None)];
    }
  }

  /** `postTodo`'s promise rejects exactly when the todo's `error` flag is truthy. */
  predicate Rejects(todo: Todo) {
    todo.error == Some(true)
  }

  /** `postTodo`: resolves with the very todo it was given unless its error flag is set. */
  function PostTodo(todo: Todo): (r: Result<Todo, PostError>)
    ensures r.Success? <==> !Rejects(todo)
    ensures r.Success? ==> r.value == todo
    ensures r.Failure? ==> r.error == PostError("An error occurred")
  {
    if Rejects(todo) then Failure(PostError("An error occurred")) else Success(todo)
  }
}
