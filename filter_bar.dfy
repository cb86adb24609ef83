/**
 * The filter form of project/src/components/FilterBar.tsx. The form holds
 * no state: each handler hands the page a shallow-merged copy of the filters
 * in which one field is replaced.
 */
module FilterBar {
  import opened Wrappers
  import opened Records
  import opened TasksApi

  /** `value || undefined`: the empty text clears a field. */
  function OrAbsent(value: string): (r: Option<string>)
    ensures r.None? <==> value == ""
    ensures r.Some? ==> r.value == value
  {
    if value == "" then None else Some(value)
  }

  /** `handleSearchChange`. */
  function HandleSearchChange(filters: TaskFilters, value: string): (r: TaskFilters)
    ensures r.search == OrAbsent(value)
    ensures forall field :: field != SearchField ==> Get(r, field) == Get(filters, field)
  {
    filters.(search := OrAbsent(value))
  }

  /**
   * `handlePriorityChange`. The source casts the value to a priority without
   * checking it, so the text is stored as it comes.
   */
  function HandlePriorityChange(filters: TaskFilters, value: string): (r: TaskFilters)
    ensures r.priority == OrAbsent(value)
    ensures forall field :: field != PriorityField ==> Get(r, field) == Get(filters, field)
  {
    filters.(priority := OrAbsent(value))
  }

  /** `handleStatusChange`. */
  function HandleStatusChange(filters: TaskFilters, value: string): (r: TaskFilters)
    ensures r.status == OrAbsent(value)
    ensures forall field :: field != StatusField ==> Get(r, field) == Get(filters, field)
  {
    filters.(status := OrAbsent(value))
  }

  /** `handleOrderingChange`. */
  function HandleOrderingChange(filters: TaskFilters, value: string): (r: TaskFilters)
    ensures r.ordering == OrAbsent(value)
    ensures forall field :: field != OrderingField ==> Get(r, field) == Get(filters, field)
  {
    filters.(ordering := OrAbsent(value))
  }

  /** `field || ''`: the text a control shows for a field. */
  function DisplayValue(field: Option<string>): (shown: string)
    ensures field.None? ==> shown == ""
    ensures field.Some? ==> shown == field.value
  {
    if field.Some? then field.value else ""
  }

  /** The four controls of the form. */
  datatype Control = SearchBox | PrioritySelect | StatusSelect | OrderingSelect

  /** The field a control edits. */
  function Target(control: Control): FilterField
  {
    match control
    case SearchBox => SearchField
    case PrioritySelect => PriorityField
    case StatusSelect => StatusField
    case OrderingSelect => OrderingField
  }

  /** The handler a control's `onChange` calls. */
  function Handle(control: Control, filters: TaskFilters, value: string): TaskFilters
  {
    match control
    case SearchBox => HandleSearchChange(filters, value)
    case PrioritySelect => HandlePriorityChange(filters, value)
    case StatusSelect => HandleStatusChange(filters, value)
    case OrderingSelect => HandleOrderingChange(filters, value)
  }

  /** The `value` a control displays for the current filters. */
  function Displayed(control: Control, filters: TaskFilters): string
  {
    DisplayValue(Get(filters, Target(control)))
  }

  /**
   * A handler replaces its control's field by the value (absent for `''`,
   * the value verbatim otherwise) and keeps every other field.
   */
  lemma HandleChangesOnlyTarget(control: Control, filters: TaskFilters, value: string)
    ensures Get(Handle(control, filters, value), Target(control)) == OrAbsent(value)
    ensures forall field :: field != Target(control) ==>
      Get(Handle(control, filters, value), field) == Get(filters, field)
  {
  }

  /** No control edits a due-date bound, so every handler keeps both. */
  lemma HandlersKeepDueDates(control: Control, filters: TaskFilters, value: string)
    ensures Target(control) != DueDateGteField && Target(control) != DueDateLteField
    ensures Handle(control, filters, value).dueDateGte == filters.dueDateGte
    ensures Handle(control, filters, value).dueDateLte == filters.dueDateLte
  {
  }

  /** Handling the same value twice is handling it once. */
  lemma HandleIdempotent(control: Control, filters: TaskFilters, value: string)
    ensures Handle(control, Handle(control, filters, value), value) == Handle(control, filters, value)
  {
  }

  /** Edits of two different controls commute. */
  lemma HandlersCommute(c: Control, d: Control, filters: TaskFilters, v: string, w: string)
    requires c != d
    ensures Handle(c, Handle(d, filters, w), v) == Handle(d, Handle(c, filters, v), w)
  {
  }

  /** After an edit, the control displays exactly the text that was entered. */
  lemma DisplayAfterHandle(control: Control, filters: TaskFilters, value: string)
    ensures Displayed(control, Handle(control, filters, value)) == value
  {
  }

  /**
   * Entering the text a control displays leaves the filters as they are,
   * exactly when its field is not the present-but-empty text.
   */
  lemma DisplayRoundTrip(control: Control, filters: TaskFilters)
    ensures Handle(control, filters, Displayed(control, filters)) == filters
        <==> Get(filters, Target(control)) != Some("")
  {
  }

  /** The values the priority select offers. */
  const PriorityOptions: seq<string> := ["", "high", "medium", "low"]

  /** The values the ordering select offers. */
  const OrderingOptions: seq<string> := ["", "-created_at", "created_at", "due_date", "-due_date", "priority"]

  /**
   * An offered priority value stores either no priority or the name of
   * exactly that member of high, medium and low.
   */
  lemma OfferedPriorityIsWellTyped(filters: TaskFilters, value: string)
    requires value in PriorityOptions
    ensures HandlePriorityChange(filters, value).priority.None? <==> value == ""
    ensures value != "" ==> exists p :: HandlePriorityChange(filters, value).priority == Some(PriorityName(p))
  {
    if value == "high" {
      assert HandlePriorityChange(filters, value).priority == Some(PriorityName(High));
    } else if value == "medium" {
      assert HandlePriorityChange(filters, value).priority == Some(PriorityName(Medium));
    } else if value == "low" {
      assert HandlePriorityChange(filters, value).priority == Some(PriorityName(Low));
    }
  }

  /**
   * What each offered ordering makes the tasks query end with. Both options
   * labelled as newest first build the same query.
   */
  lemma OfferedOrderings(filters: TaskFilters)
    ensures OrderFor(HandleOrderingChange(filters, "").ordering) == Order("created_at", false)
    ensures OrderFor(HandleOrderingChange(filters, "-created_at").ordering) == Order("created_at", false)
    ensures OrderFor(HandleOrderingChange(filters, "created_at").ordering) == Order("created_at", true)
    ensures OrderFor(HandleOrderingChange(filters, "due_date").ordering) == Order("due_date", true)
    ensures OrderFor(HandleOrderingChange(filters, "-due_date").ordering) == Order("due_date", false)
    ensures OrderFor(HandleOrderingChange(filters, "priority").ordering) == Order("priority", true)
    ensures TaskPlan(HandleOrderingChange(filters, "")) == TaskPlan(HandleOrderingChange(filters, "-created_at"))
    ensures forall o :: o in OrderingOptions ==>
      OrderFor(HandleOrderingChange(filters, o).ordering).column in {"created_at", "due_date", "priority"}
  {
  }
}
