/**
 * The retrieval operations of project/src/api/tasks.ts.
 *
 * The query builder of the remote store is modelled as the request it is
 * handed: a table, a column selection and the ordered chain of builder calls.
 * Executing a request belongs to the store, which is a parameter here.
 */
module TasksApi {
  import opened Wrappers
  import opened Records

  /**
   * The filter record the page holds and the form edits. Every field is
   * optional. `priority` is held as text: the form casts its select's value
   * without checking it, so at run time any text can arrive here.
   */
  datatype TaskFilters = TaskFilters(
    priority: Option<string>,
    status: Option<string>,
    search: Option<string>,
    dueDateGte: Option<string>,
    dueDateLte: Option<string>,
    ordering: Option<string>)

  /** The empty filter record `{}`. */
  const NoFilters := TaskFilters(None, None, None, None, None, None)

  /** The six fields of a filter record, to speak of them uniformly. */
  datatype FilterField =
    PriorityField | StatusField | SearchField | DueDateGteField | DueDateLteField | OrderingField

  function Get(filters: TaskFilters, field: FilterField): Option<string>
  {
    match field
    case PriorityField => filters.priority
    case StatusField => filters.status
    case SearchField => filters.search
    case DueDateGteField => filters.dueDateGte
    case DueDateLteField => filters.dueDateLte
    case OrderingField => filters.ordering
  }

  /** JavaScript truthiness of an optional text: present and not `''`. */
  predicate Truthy(field: Option<string>)
  {
    field.Some? && field.value != ""
  }

  /** One call on the query builder. */
  datatype QueryOp =
    | Eq(column: string, value: string)
    | OrIlike(pattern: string)
    | Gte(column: string, value: string)
    | Lte(column: string, value: string)
    | Order(column: string, ascending: bool)

  /** `select('*')`, or `*` plus the creator's username and email. */
  datatype Selection = AllColumns | AllColumnsWithCreator

  /** What `from(table).select(...)` followed by the chain of calls asks the store. */
  datatype Request = Request(table: string, selection: Selection, ops: seq<QueryOp>)

  /** The ordering directive a column and a direction are written as. */
  function OrderingDirective(column: string, ascending: bool): string
  {
    if ascending then column else "-" + column
  }

  /**
   * Splits an ordering directive: a leading `-` means descending and is
   * stripped (only one of them); anything else names an ascending column.
   */
  function ParseOrdering(directive: string): (r: (string, bool))
    ensures !r.1 <==> |directive| > 0 && directive[0] == '-'
    ensures OrderingDirective(r.0, r.1) == directive
  {
    var isDescending := |directive| > 0 && directive[0] == '-';
    var field := if isDescending then directive[1..] else directive;
    (field, !isDescending)
  }

  /** The default order: newest first. */
  const DefaultOrder := Order("created_at", false)

  /** The single `order` call that ends the tasks query. */
  function OrderFor(ordering: Option<string>): (op: QueryOp)
    ensures op.Order?
    ensures !Truthy(ordering) ==> op == DefaultOrder
    ensures Truthy(ordering) ==> (op.column, op.ascending) == ParseOrdering(ordering.value)
    ensures Truthy(ordering) ==> OrderingDirective(op.column, op.ascending) == ordering.value
  {
    if Truthy(ordering) then
      var (field, ascending) := ParseOrdering(ordering.value);
      Order(field, ascending)
    else
      DefaultOrder
  }

  const SearchPrefix := "title.ilike.%"
  const SearchMiddle := "%,description.ilike.%"
  const SearchSuffix := "%"

  /** The `or` filter text for a search term; the term is embedded unescaped. */
  function SearchPattern(term: string): string
  {
    SearchPrefix + term + SearchMiddle + term + SearchSuffix
  }

  /** 1 when a filter field is set, 0 otherwise. */
  function SetBit(field: Option<string>): nat
  {
    if Truthy(field) then 1 else 0
  }

  /** How many of the five narrowing filters are set. */
  function SetFilterCount(filters: TaskFilters): nat
  {
    SetBit(filters.priority) + SetBit(filters.status) + SetBit(filters.search)
    + SetBit(filters.dueDateGte) + SetBit(filters.dueDateLte)
  }

  /** The text of an optional field, `''` when absent. */
  function TextOf(field: Option<string>): string
  {
    if field.Some? then field.value else ""
  }

  /** The one call a set filter field contributes, none for an unset one. */
  function CallIfSet(field: Option<string>, call: QueryOp): seq<QueryOp>
  {
    if Truthy(field) then [call] else []
  }

  function PriorityCalls(filters: TaskFilters): seq<QueryOp>
  {
    CallIfSet(filters.priority, Eq("priority", TextOf(filters.priority)))
  }

  function StatusCalls(filters: TaskFilters): seq<QueryOp>
  {
    CallIfSet(filters.status, Eq("status", TextOf(filters.status)))
  }

  function SearchCalls(filters: TaskFilters): seq<QueryOp>
  {
    CallIfSet(filters.search, OrIlike(SearchPattern(TextOf(filters.search))))
  }

  function DueFromCalls(filters: TaskFilters): seq<QueryOp>
  {
    CallIfSet(filters.dueDateGte, Gte("due_date", TextOf(filters.dueDateGte)))
  }

  function DueUntilCalls(filters: TaskFilters): seq<QueryOp>
  {
    CallIfSet(filters.dueDateLte, Lte("due_date", TextOf(filters.dueDateLte)))
  }

  /**
   * The chain of builder calls the tasks query makes for a filter record:
   * one call per set filter, in a fixed order, and then one `order` call.
   */
  function TaskPlan(filters: TaskFilters): (ops: seq<QueryOp>)
    ensures |ops| == SetFilterCount(filters) + 1
    ensures ops[|ops| - 1] == OrderFor(filters.ordering)
    ensures forall i :: 0 <= i < |ops| - 1 ==> !ops[i].Order?
  {
    PriorityCalls(filters) + StatusCalls(filters) + SearchCalls(filters)
    + DueFromCalls(filters) + DueUntilCalls(filters) + [OrderFor(filters.ordering)]
  }

  /** The whole tasks request for a filter record. */
  function TasksRequest(filters: TaskFilters): Request
  {
    Request("tasks", AllColumnsWithCreator, TaskPlan(filters))
  }

  /** Where each kind of call stands in the tasks query; 6 for calls it never makes. */
  function Slot(op: QueryOp): nat
  {
    match op
    case Eq(column, _) => if column == "priority" then 0 else if column == "status" then 1 else 6
    case OrIlike(_) => 2
    case Gte(column, _) => if column == "due_date" then 3 else 6
    case Lte(column, _) => if column == "due_date" then 4 else 6
    case Order(_, _) => 5
  }

  /**
   * The calls of the tasks query come in the order priority, status, search,
   * lower due-date bound, upper due-date bound, order; so no kind of call
   * appears twice.
   */
  lemma PlanFollowsFixedOrder(filters: TaskFilters)
    ensures forall i, j :: 0 <= i < j < |TaskPlan(filters)| ==>
      Slot(TaskPlan(filters)[i]) < Slot(TaskPlan(filters)[j])
    ensures forall i :: 0 <= i < |TaskPlan(filters)| ==> Slot(TaskPlan(filters)[i]) < 6
  {
  }

  /** A call is in the tasks plan iff one of its parts holds it. */
  lemma InPlan(filters: TaskFilters, op: QueryOp)
    ensures op in TaskPlan(filters) <==>
      op in PriorityCalls(filters) || op in StatusCalls(filters) || op in SearchCalls(filters)
      || op in DueFromCalls(filters) || op in DueUntilCalls(filters) || op == OrderFor(filters.ordering)
  {
    assert TaskPlan(filters) == PriorityCalls(filters) + StatusCalls(filters) + SearchCalls(filters)
      + DueFromCalls(filters) + DueUntilCalls(filters) + [OrderFor(filters.ordering)];
  }

  /**
   * Each narrowing filter contributes its call, carrying its value verbatim,
   * exactly when it is set.
   */
  lemma PlanContents(filters: TaskFilters)
    ensures forall v :: Eq("priority", v) in TaskPlan(filters) <==>
      Truthy(filters.priority) && v == filters.priority.value
    ensures forall v :: Eq("status", v) in TaskPlan(filters) <==>
      Truthy(filters.status) && v == filters.status.value
    ensures forall p :: OrIlike(p) in TaskPlan(filters) <==>
      Truthy(filters.search) && p == SearchPattern(filters.search.value)
    ensures forall v :: Gte("due_date", v) in TaskPlan(filters) <==>
      Truthy(filters.dueDateGte) && v == filters.dueDateGte.value
    ensures forall v :: Lte("due_date", v) in TaskPlan(filters) <==>
      Truthy(filters.dueDateLte) && v == filters.dueDateLte.value
  {
    forall v ensures Eq("priority", v) in TaskPlan(filters) <==>
      Truthy(filters.priority) && v == filters.priority.value
    {
      InPlan(filters, Eq("priority", v));
    }
    forall v ensures Eq("status", v) in TaskPlan(filters) <==>
      Truthy(filters.status) && v == filters.status.value
    {
      InPlan(filters, Eq("status", v));
    }
    forall p ensures OrIlike(p) in TaskPlan(filters) <==>
      Truthy(filters.search) && p == SearchPattern(filters.search.value)
    {
      InPlan(filters, OrIlike(p));
    }
    forall v ensures Gte("due_date", v) in TaskPlan(filters) <==>
      Truthy(filters.dueDateGte) && v == filters.dueDateGte.value
    {
      InPlan(filters, Gte("due_date", v));
    }
    forall v ensures Lte("due_date", v) in TaskPlan(filters) <==>
      Truthy(filters.dueDateLte) && v == filters.dueDateLte.value
    {
      InPlan(filters, Lte("due_date", v));
    }
  }

  /**
   * Builds the tasks request the way the source does: starting from the
   * table and selection, each set filter appends one call, and exactly one
   * `order` call ends the chain.
   */
  method BuildTasksRequest(filters: TaskFilters) returns (query: Request)
    ensures query == TasksRequest(filters)
  {
    query := Request("tasks", AllColumnsWithCreator, []);
    if Truthy(filters.priority) {
      query := query.(ops := query.ops + [Eq("priority", filters.priority.value)]);
    }
    assert query.ops == PriorityCalls(filters);
    if Truthy(filters.status) {
      query := query.(ops := query.ops + [Eq("status", filters.status.value)]);
    }
    assert query.ops == PriorityCalls(filters) + StatusCalls(filters);
    if Truthy(filters.search) {
      query := query.(ops := query.ops + [OrIlike(SearchPattern(filters.search.value))]);
    }
    ghost var narrowed := PriorityCalls(filters) + StatusCalls(filters) + SearchCalls(filters);
    assert query.ops == narrowed;
    if Truthy(filters.dueDateGte) {
      query := query.(ops := query.ops + [Gte("due_date", filters.dueDateGte.value)]);
    }
    narrowed := narrowed + DueFromCalls(filters);
    assert query.ops == narrowed;
    if Truthy(filters.dueDateLte) {
      query := query.(ops := query.ops + [Lte("due_date", filters.dueDateLte.value)]);
    }
    narrowed := narrowed + DueUntilCalls(filters);
    assert query.ops == narrowed;
    if Truthy(filters.ordering) {
      var (field, ascending) := ParseOrdering(filters.ordering.value);
      query := query.(ops := query.ops + [Order(field, ascending)]);
    } else {
      query := query.(ops := query.ops + [Order("created_at", false)]);
    }
    assert query.ops == narrowed + [OrderFor(filters.ordering)];
  }

  /** The error object the store reports. */
  datatype StoreError = StoreError(message: string)

  /** The store's `{ data, error }` reply; either part may be null. */
  datatype StoreReply<T> = StoreReply(data: Option<seq<T>>, error: Option<StoreError>)

  /** A value a retrieval throws: an `Error` instance, or anything else. */
  datatype Thrown = ErrorObject(message: string) | OtherValue

  /**
   * What a retrieval returns for the store's reply: a reported error is
   * rethrown as an `Error` carrying its message verbatim; otherwise the
   * records, with a null `data` read as no records.
   */
  function Settle<T>(reply: StoreReply<T>): (r: Result<seq<T>, Thrown>)
    ensures r.Failure? <==> reply.error.Some?
    ensures r.Failure? ==> r.error == ErrorObject(reply.error.value.message)
    ensures r.Success? && reply.data.Some? ==> r.value == reply.data.value
    ensures r.Success? && reply.data.None? ==> r.value == []
  {
    if reply.error.Some? then Failure(ErrorObject(reply.error.value.message))
    else if reply.data.Some? then Success(reply.data.value)
    else Success([])
  }

  /**
   * `fetchTasks`: builds the request for the filters, hands it to the store
   * and settles the reply. A call without arguments is `FetchTasks(NoFilters, store)`.
   */
  method FetchTasks(filters: TaskFilters, store: Request -> StoreReply<Task>)
    returns (query: Request, result: Result<seq<Task>, Thrown>)
    ensures query == TasksRequest(filters)
    ensures result == Settle(store(query))
  {
    query := BuildTasksRequest(filters);
    var reply := store(query);
    result := Settle(reply);
  }

  /** The calls a per-task query makes: the task's rows, oldest first. */
  function ByTaskPlan(taskId: string): seq<QueryOp>
  {
    [Eq("task_id", taskId), Order("created_at", true)]
  }

  function CommentsRequest(taskId: string): Request
  {
    Request("comments", AllColumns, ByTaskPlan(taskId))
  }

  function AttachmentsRequest(taskId: string): Request
  {
    Request("attachments", AllColumns, ByTaskPlan(taskId))
  }

  /**
   * The comments and attachments queries select all columns of their table,
   * narrow by the task id only, and order by creation time ascending; they
   * differ only in the table, and the task id determines the request.
   */
  lemma ByTaskRequests(taskId: string, other: string)
    ensures CommentsRequest(taskId).ops == AttachmentsRequest(taskId).ops
    ensures CommentsRequest(taskId).table == "comments"
    ensures AttachmentsRequest(taskId).table == "attachments"
    ensures |ByTaskPlan(taskId)| == 2
    ensures ByTaskPlan(taskId)[0] == Eq("task_id", taskId)
    ensures ByTaskPlan(taskId)[1] == Order("created_at", true)
    ensures CommentsRequest(taskId) == CommentsRequest(other) <==> taskId == other
  {
  }

  /** `fetchTaskComments`. */
  method FetchTaskComments(taskId: string, store: Request -> StoreReply<Comment>)
    returns (query: Request, result: Result<seq<Comment>, Thrown>)
    ensures query == CommentsRequest(taskId)
    ensures result == Settle(store(query))
  {
    query := Request("comments", AllColumns, [Eq("task_id", taskId), Order("created_at", true)]);
    var reply := store(query);
    result := Settle(reply);
  }

  /** `fetchTaskAttachments`. */
  method FetchTaskAttachments(taskId: string, store: Request -> StoreReply<Attachment>)
    returns (query: Request, result: Result<seq<Attachment>, Thrown>)
    ensures query == AttachmentsRequest(taskId)
    ensures result == Settle(store(query))
  {
    query := Request("attachments", AllColumns, [Eq("task_id", taskId), Order("created_at", true)]);
    var reply := store(query);
    result := Settle(reply);
  }
}
