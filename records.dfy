/**
 * Record shapes of the three tables of the remote store
 * (project/src/lib/supabase.ts). The client holds read-through copies only.
 */
module Records {
  import opened Wrappers

  /** The three priorities the `tasks` table allows. */
  datatype Priority = High | Medium | Low

  /** The text by which the store and the filter form name a priority. */
  function PriorityName(p: Priority): string
  {
    match p
    case High => "high"
    case Medium => "medium"
    case Low => "low"
  }

  /** The creator's summary the tasks query joins in from `users`. */
  datatype CreatorSummary = CreatorSummary(username: string, email: string)

  datatype Task = Task(
    rowguid: string,
    title: string,
    description: string,
    priority: Priority,
    status: string,
    dueDate: Option<string>,
    createdBy: Option<string>,
    partnerId: Option<string>,
    createdAt: string,
    updatedAt: string,
    createdByUser: Option<CreatorSummary>)

  datatype Comment = Comment(
    rowguid: string,
    taskId: string,
    userId: Option<string>,
    content: string,
    createdAt: string)

  datatype Attachment = Attachment(
    rowguid: string,
    taskId: string,
    filename: string,
    url: string,
    createdAt: string)
}
