/**
 * The page of project/src/pages/Home.tsx: its four pieces of state, the
 * load they go through, and what the page shows for them. Loads are taken
 * one at a time: a load's completion arrives before the next event.
 */
module Home {
  import opened Wrappers
  import opened Records
  import opened TasksApi

  /** The message shown when something other than an `Error` was thrown. */
  const LoadErrorFallback := "Erro ao carregar tarefas"

  /** The message the page stores for a thrown value. */
  function ErrorText(thrown: Thrown): (message: string)
    ensures thrown.ErrorObject? ==> message == thrown.message
    ensures thrown.OtherValue? ==> message == LoadErrorFallback
  {
    match thrown
    case ErrorObject(m) => m
    case OtherValue => LoadErrorFallback
  }

  const FoundOne := "tarefa encontrada"
  const FoundMany := "tarefas encontradas"

  /** The result count the page prints under the list. */
  datatype Footer = Footer(count: nat, wording: string)

  /**
   * What the page shows: the loading indicator, the error banner with its
   * message, the tasks handed to the list, and the count footer.
   */
  datatype Screen = Screen(
    spinner: bool,
    errorBanner: Option<string>,
    list: Option<seq<Task>>,
    footer: Option<Footer>)

  /** The page's view of its state. */
  function Render(loading: bool, error: Option<string>, tasks: seq<Task>): (s: Screen)
    ensures s.spinner <==> loading
    ensures s.list.Some? <==> !loading
    ensures s.list.Some? ==> s.list.value == tasks
    ensures s.errorBanner.Some? <==> error.Some? && error.value != ""
    ensures s.errorBanner.Some? ==> s.errorBanner == error
    ensures s.footer.Some? <==> !loading && |tasks| > 0
    ensures s.footer.Some? ==> s.footer.value.count == |tasks|
    ensures s.footer.Some? ==> (s.footer.value.wording == FoundOne <==> |tasks| == 1)
    ensures s.footer.Some? ==> s.footer.value.wording in {FoundOne, FoundMany}
  {
    Screen(
      loading,
      if error.Some? && error.value != "" then error else None,
      if loading then None else Some(tasks),
      if !loading && |tasks| > 0
      then Some(Footer(|tasks|, if |tasks| == 1 then FoundOne else FoundMany))
      else None)
  }

  /**
   * The loading indicator and the list are never shown together, and the
   * footer is shown only under a non-empty list. In a state where a load in
   * progress has cleared the error, the banner never shows beside the
   * indicator either.
   */
  lemma ScreenIsConsistent(loading: bool, error: Option<string>, tasks: seq<Task>)
    ensures Render(loading, error, tasks).spinner != Render(loading, error, tasks).list.Some?
    ensures Render(loading, error, tasks).footer.Some? ==>
      Render(loading, error, tasks).list.Some? && Render(loading, error, tasks).list.value != []
    ensures (loading ==> error.None?) ==>
      !(Render(loading, error, tasks).spinner && Render(loading, error, tasks).errorBanner.Some?)
  {
  }

  class HomePage {
    var tasks: seq<Task>
    var loading: bool
    var error: Option<string>
    var filters: TaskFilters

    /** A load in progress has always cleared the previous error. */
    ghost predicate Valid()
      reads this
    {
      loading ==> error.None?
    }

    /** The initial state: no tasks, loading, no error, no filters. */
    constructor ()
      ensures Valid()
      ensures tasks == [] && loading && error == None && filters == NoFilters
    {
      tasks := [];
      loading := true;
      error := None;
      filters := NoFilters;
    }

    function CurrentScreen(): Screen
      reads this
    {
      Render(loading, error, tasks)
    }

    /** The refresh button is enabled only while no load is in progress. */
    function RefreshEnabled(): bool
      reads this
    {
      !loading
    }

    /**
     * The start of `loadTasks`: loading on, error cleared, tasks kept. The
     * load asks for the filters held at this moment.
     */
    method StartLoad() returns (requested: TaskFilters)
      modifies this`loading, this`error
      ensures Valid()
      ensures loading && error == None
      ensures tasks == old(tasks) && filters == old(filters)
      ensures requested == filters
    {
      loading := true;
      error := None;
      requested := filters;
    }

    /** A load returned its tasks: they replace the list, loading ends. */
    method LoadSucceeded(data: seq<Task>)
      requires Valid() && loading
      modifies this`tasks, this`loading
      ensures Valid()
      ensures tasks == data && !loading && error == None
      ensures filters == old(filters)
    {
      tasks := data;
      loading := false;
    }

    /**
     * A load threw: its message (or the fallback) becomes the error and
     * loading ends; the tasks of the previous load stay.
     */
    method LoadFailed(thrown: Thrown)
      requires Valid() && loading
      modifies this`error, this`loading
      ensures Valid()
      ensures error == Some(ErrorText(thrown)) && !loading
      ensures tasks == old(tasks) && filters == old(filters)
    {
      error := Some(ErrorText(thrown));
      loading := false;
    }

    /**
     * `loadTasks` from start to completion, with the store's reply to the
     * tasks request for the current filters.
     */
    method LoadTasks(store: Request -> StoreReply<Task>) returns (query: Request)
      modifies this`tasks, this`loading, this`error
      ensures Valid() && !loading && filters == old(filters)
      ensures query == TasksRequest(filters)
      ensures store(query).error.Some? ==>
        error == Some(store(query).error.value.message) && tasks == old(tasks)
      ensures store(query).error.None? ==>
        error == None && tasks == Settle(store(query)).value
    {
      var requested := StartLoad();
      var result;
      query, result := FetchTasks(requested, store);
      match result
      case Success(data) => LoadSucceeded(data);
      case Failure(thrown) => LoadFailed(thrown);
    }

    /** `handleRefresh` behind the button's guard: accepted only when idle. */
    method Refresh() returns (accepted: bool, requested: Option<TaskFilters>)
      requires Valid()
      modifies this`loading, this`error
      ensures Valid()
      ensures accepted <==> old(RefreshEnabled())
      ensures accepted <==> !old(loading)
      ensures accepted ==> loading && error == None && requested == Some(filters)
      ensures !accepted ==> loading == old(loading) && error == old(error) && requested == None
      ensures tasks == old(tasks) && filters == old(filters)
    {
      accepted := !loading;
      if accepted {
        var f := StartLoad();
        requested := Some(f);
      } else {
        requested := None;
      }
    }

    /**
     * The form emitted new filters: they are stored and, since every edit
     * is a new record, the effect on `filters` starts a load using them.
     */
    method ChangeFilters(newFilters: TaskFilters) returns (requested: TaskFilters)
      modifies this`filters, this`loading, this`error
      ensures Valid()
      ensures filters == newFilters && requested == newFilters
      ensures loading && error == None && tasks == old(tasks)
    {
      filters := newFilters;
      requested := StartLoad();
    }
  }

  /**
   * A load that succeeds and a refresh that then fails leave the earlier
   * tasks on screen beside the failure's message.
   */
  method FailedRefreshKeepsTasks(data: seq<Task>, message: string) returns (shown: Screen)
    ensures shown.list == Some(data)
    ensures shown.errorBanner == (if message == "" then None else Some(message))
    ensures !shown.spinner
  {
    var page := new HomePage();
    var _ := page.StartLoad();
    page.LoadSucceeded(data);
    var accepted, requested := page.Refresh();
    assert accepted;
    page.LoadFailed(ErrorObject(message));
    shown := page.CurrentScreen();
  }

  /**
   * While the initial load runs, a refresh is turned away and the page
   * still shows only the loading indicator: the screen of the initial state.
   */
  method RefreshDuringInitialLoad() returns (accepted: bool, shown: Screen)
    ensures !accepted
    ensures shown.spinner && shown.list.None? && shown.footer.None? && shown.errorBanner.None?
    ensures shown == Render(true, None, [])
  {
    var page := new HomePage();
    var requested;
    accepted, requested := page.Refresh();
    shown := page.CurrentScreen();
  }
}
