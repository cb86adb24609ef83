# Task list front end: query plans, filter form and page state

A Dafny model of the logic in a small task-tracking web front end. The front
end reads task records from a hosted relational store, lets the user narrow
and sort them with a filter form, and shows them with loading and error
states. Three pieces carry logic, and each is a module here:

- **TasksApi** (`project/src/api/tasks.ts`). `fetchTasks` turns a filter
  record into a chain of query-builder calls: `eq` for priority and status,
  one `or` with an `ilike` pattern for the search term, `gte`/`lte` for the
  due-date bounds, then exactly one `order`. The chain is modelled as a
  `Request`: the table, the column selection and a `seq<QueryOp>`. An unset
  field is JavaScript-falsy: absent or `''`. The ordering directive loses one
  leading `-` and then means descending; no directive means `created_at`,
  newest first. The store's `{data, error}` reply is settled into a result:
  an error is rethrown as an `Error` carrying the store's message verbatim,
  and a null `data` becomes the empty sequence. `BuildTasksRequest` builds
  the chain by appending, as the source reassigns `query`. It is proved
  equal to the function `TaskPlan`, and the lemmas are about that function.
  The comments and attachments queries have a fixed two-call plan.
- **PlanReplay** is a reference definition with no counterpart in the
  source. It replays a chain of calls back onto a filter record. Replaying
  a record's plan gives the record's canonical spelling, so `Replay` is a
  left inverse of `TaskPlan` on canonical records. Two filter records give the same query
  exactly when they agree on a canonical spelling: unset fields absent, and
  no ordering written as `-created_at`. So the plan keeps every set filter
  and its value.
- **FilterBar** (`project/src/components/FilterBar.tsx`). The form holds no
  state. Each of its four handlers returns a shallow-merged copy of the
  filter record with one field replaced. `''` clears that field, and every
  other field is kept. The controls display `field || ''`.
- **Home** (`project/src/pages/Home.tsx`). The page's four `useState` values
  are the fields of a class `HomePage`. The methods are the steps of
  `loadTasks` (start, success, failure), the guarded refresh and a filter
  change. `LoadTasks` runs a whole load against a store reply. A pure
  function `Render` gives what the page shows for a state.
- **Records** holds the record shapes of `project/src/lib/supabase.ts`, and
  **Wrappers** holds `Option` and `Result`.

The remote store is a parameter: a total function from a `Request` to a
`StoreReply`. Nothing about how the store filters or orders rows is modelled.

One might expect a failed load to clear the results of earlier loads. The
code does not clear them (`project/src/pages/Home.tsx:21-23`), and the model
follows the code: `LoadFailed` keeps `tasks`, and
`FailedRefreshKeepsTasks` shows the earlier tasks still listed beside the
failure's message.

Other behaviour the model makes explicit:

- The priority handler casts the select's text to a priority without
  checking it. `TaskFilters.priority` therefore holds text, and
  `OfferedPriorityIsWellTyped` proves that the offered options store only
  `high`, `medium` or `low`.
- The error banner shows only when the stored error is non-empty text.
  `error && …` in the markup hides an empty message.
- Each form edit builds a new record, so the effect keyed on `filters` starts
  a load on every edit, even one that leaves the contents as they were.
- While a load runs, the page always has no error (`HomePage.Valid`). So the
  loading indicator and the error banner never show together.

## Model

| member | source | states |
|---|---|---|
| TasksApi.ParseOrdering | project/src/api/tasks.ts:41-42 | descending exactly when the directive starts with `-`. Writing the column back with one `-` for descending gives the directive again, so exactly one `-` is stripped (`--x` gives column `-x`, descending) |
| TasksApi.OrderFor | project/src/api/tasks.ts:40-46 | the final call is always an `order`. An absent or empty directive gives `order("created_at", descending)`. A set directive gives exactly the column and direction `ParseOrdering` reads from it |
| TasksApi.TaskPlan | project/src/api/tasks.ts:20-46 | the plan has one call per set filter plus one. It ends with the `order` call for the directive, and no earlier call is an `order` |
| TasksApi.PlanFollowsFixedOrder | project/src/api/tasks.ts:20-46 | calls come in the fixed order priority, status, search, lower bound, upper bound, order. So no kind of call appears twice, and no other kind appears |
| TasksApi.PlanContents | project/src/api/tasks.ts:20-38 | each of priority, status, search, lower and upper due-date bound contributes its call, carrying its value verbatim, iff it is present and non-empty. The search call's pattern is `title.ilike.%s%,description.ilike.%s%` with the term unescaped |
| TasksApi.BuildTasksRequest | project/src/api/tasks.ts:13-46 | building by successive appends from `from('tasks').select(… creator …)` yields exactly the tasks request for the filters |
| TasksApi.Settle | project/src/api/tasks.ts:48-54 | failure iff the store reports an error, and then it is an `Error` with the store's message verbatim. Otherwise the result is `data`, or the empty sequence when `data` is null |
| TasksApi.FetchTasks | project/src/api/tasks.ts:12-55 | the store is asked the tasks request for the filters, and the result is that reply settled. The default argument `{}` is the call `FetchTasks(NoFilters, store)` |
| TasksApi.SearchPattern | project/src/api/tasks.ts:29 | the definition of the `or` filter text, with the term embedded unescaped; it has no contract, and its properties are in PlanContents, SearchTermOfPattern and SearchPatternInjective |
| TasksApi.TasksRequest | project/src/api/tasks.ts:13-46 | the definition of the tasks request: table `tasks`, all columns plus the creator, and the chain `TaskPlan`; it has no contract, and BuildTasksRequest is proved equal to it |
| TasksApi.CommentsRequest | project/src/api/tasks.ts:58-62 | the definition of the comments request: table `comments`, all columns, and the per-task plan; it has no contract, and its properties are in ByTaskRequests |
| TasksApi.AttachmentsRequest | project/src/api/tasks.ts:72-76 | the definition of the attachments request: table `attachments`, all columns, and the per-task plan; it has no contract, and its properties are in ByTaskRequests |
| TasksApi.ByTaskRequests | project/src/api/tasks.ts:57-83 | the comments and attachments plans are exactly `[eq("task_id", id), order("created_at", ascending)]`. They differ only in the table, and the id determines the request |
| TasksApi.FetchTaskComments | project/src/api/tasks.ts:57-69 | asks the comments request for the id and settles the reply with the same error and null handling |
| TasksApi.FetchTaskAttachments | project/src/api/tasks.ts:71-83 | asks the attachments request for the id and settles the reply with the same error and null handling |
| PlanReplay.SearchTermOfPattern | project/src/api/tasks.ts:29 | the search term is recovered from the pattern built for it |
| PlanReplay.SearchPatternInjective | project/src/api/tasks.ts:29 | two search terms give the same pattern iff they are equal |
| PlanReplay.ReplayPlan | project/src/api/tasks.ts:20-46 | replaying the tasks plan onto `{}` yields the canonical spelling of the filters. No set filter or value is lost |
| PlanReplay.PlanOfCanonical | project/src/api/tasks.ts:20-46 | the plan depends only on the canonical spelling. `''` acts as absent, and an absent ordering acts as `-created_at` |
| PlanReplay.PlanDeterminesFilters | project/src/api/tasks.ts:20-46 | two filter records build equal plans iff their canonical spellings are equal |
| FilterBar.OrAbsent | project/src/components/FilterBar.tsx:10-27 | `value \|\| undefined` is absent iff the value is `''`, and otherwise the value verbatim |
| FilterBar.HandleSearchChange | project/src/components/FilterBar.tsx:10-12 | search becomes the value, or absent for `''`. Every other field is kept |
| FilterBar.HandlePriorityChange | project/src/components/FilterBar.tsx:14-19 | priority becomes the value unchecked, or absent for `''`. Every other field is kept |
| FilterBar.HandleStatusChange | project/src/components/FilterBar.tsx:21-23 | status becomes the value, or absent for `''`. Every other field is kept |
| FilterBar.HandleOrderingChange | project/src/components/FilterBar.tsx:25-27 | ordering becomes the value, or absent for `''`. Every other field is kept |
| FilterBar.DisplayValue | project/src/components/FilterBar.tsx:42 | `field \|\| ''` shows `''` for an absent field and the field's text otherwise |
| FilterBar.HandleChangesOnlyTarget | project/src/components/FilterBar.tsx:10-27 | a control's handler sets its own field from the value and keeps every other field |
| FilterBar.HandlersKeepDueDates | project/src/components/FilterBar.tsx:10-27 | no control targets a due-date bound, so every handler keeps both bounds |
| FilterBar.HandleIdempotent | project/src/components/FilterBar.tsx:10-27 | applying a handler twice with the same value equals applying it once |
| FilterBar.HandlersCommute | project/src/components/FilterBar.tsx:10-27 | edits on two different controls commute |
| FilterBar.DisplayAfterHandle | project/src/components/FilterBar.tsx:39-72 | after an edit, the control displays exactly the text entered |
| FilterBar.DisplayRoundTrip | project/src/components/FilterBar.tsx:39-72 | feeding a control's displayed value back into its handler leaves the filters unchanged iff the field is not the present-but-empty text |
| FilterBar.OfferedPriorityIsWellTyped | project/src/components/FilterBar.tsx:48-57 | an offered priority option stores no priority iff it is `''`, and otherwise the name of one of high, medium, low |
| FilterBar.OfferedOrderings | project/src/components/FilterBar.tsx:70-81 | the final `order` call each offered ordering produces, and every offered option sorts by `created_at`, `due_date` or `priority`. The two options labelled newest first build the same plan |
| Home.ErrorText | project/src/pages/Home.tsx:22 | an `Error`'s message verbatim, or `'Erro ao carregar tarefas'` for any other thrown value |
| Home.Render | project/src/pages/Home.tsx:64-76 | the list is shown iff not loading, and it gets the tasks in order. The footer is shown iff not loading and tasks are non-empty; it carries the count and uses the singular wording iff there is exactly one task. The banner is shown iff the error is non-empty |
| Home.ScreenIsConsistent | project/src/pages/Home.tsx:64-76 | indicator and list never show together. The footer shows only under a non-empty list. With a load's error cleared, indicator and banner never show together |
| Home.HomePage.constructor | project/src/pages/Home.tsx:10-13 | initial state: tasks `[]`, loading, no error, filters `{}` |
| Home.HomePage.StartLoad | project/src/pages/Home.tsx:17-18 | loading on and error cleared. Tasks and filters are unchanged, and the load uses the current filters |
| Home.HomePage.LoadSucceeded | project/src/pages/Home.tsx:19-25 | tasks become the returned data, loading ends and the error stays cleared |
| Home.HomePage.LoadFailed | project/src/pages/Home.tsx:21-25 | the error becomes the thrown value's message or the fallback. Loading ends, and tasks stay as before the load |
| Home.HomePage.LoadTasks | project/src/pages/Home.tsx:15-27 | a whole load asks the tasks request for the current filters and ends with loading off. On a store error the page holds the store's message verbatim and keeps its tasks. Otherwise the tasks are the settled data and there is no error |
| Home.HomePage.RefreshEnabled | project/src/pages/Home.tsx:50 | the definition of the refresh button's enabled state, `disabled={loading}`; it has no contract, and Refresh accepts exactly when it holds |
| Home.HomePage.Refresh | project/src/pages/Home.tsx:33-55 | accepted iff the button is enabled, that is iff not loading, and then a load starts with the current filters. When refused nothing changes |
| Home.HomePage.ChangeFilters | project/src/pages/Home.tsx:29-31 | the new filters are stored and a load starts using them, keeping the tasks |
| Home.FailedRefreshKeepsTasks | project/src/pages/Home.tsx:15-27 | after a successful load and a failed refresh, the earlier tasks are still listed beside the failure's message |
| Home.RefreshDuringInitialLoad | project/src/pages/Home.tsx:48-55 | during the initial load the refresh is refused and only the loading indicator shows: no list, no footer, no error banner; the screen is that of the initial state |

## Left out

- Creating the store client from environment settings
  (`project/src/lib/supabase.ts:1-6`). It is a foreign library; only the
  record shapes are kept.
- Executing a request: the store's `eq`, `ilike`, range and ordering
  semantics, the `users` join, and the syntax of the `or` filter text. A
  search term that contains `,` or `)` is embedded unescaped, and the model
  does not say how the store reads it.
- Exceptions that the store client throws itself, rather than reporting them
  in its reply. `FetchTasks` only sees replies. `LoadFailed` takes any thrown
  value, including non-`Error` values.
- Overlapping loads and React's effect scheduling. Loads are sequential:
  `LoadSucceeded` and `LoadFailed` require a load in progress, and the mount
  effect is a `StartLoad` call after the constructor.
- The default argument of `fetchTasks` (`project/src/api/tasks.ts:12`) is
  not a separate member: calling it without filters is
  `FetchTasks(NoFilters, store)`. The page always passes its filters.
- The `console.error` logging (`project/src/pages/Home.tsx:23`), which is I/O.
- Home.Render: gives the footer as a count and a wording, not as text,
  because the decimal rendering of the number is left out.
- `project/src/components/TaskItem.tsx`: date formatting depends on the
  locale, the overdue flag depends on the clock, and the rest is styling.
  `project/src/components/TaskList.tsx` and
  `project/src/components/Loading.tsx` are markup; `Render` only says which
  tasks are handed to the list.
- CSS classes, icons and the rest of the JSX markup.
