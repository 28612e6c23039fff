/**
 * The rows the application reads from and writes to its hosted database
 * (the `Row` types of src/lib/supabase.ts), the replies the database gives,
 * and the `onToggleComplete(id, completed)` callback invocations the task
 * cards emit. Timestamps are opaque strings.
 */
module Rows {
  import opened Wrappers

  type Id = string
  type Timestamp = string

  datatype Priority = Low | Medium | High

  /** A personal task (`tasks` row). */
  datatype Task = Task(
    id: Id,
    title: string,
    description: Option<string>,
    priority: Priority,
    completed: bool,
    scheduledFor: Option<Timestamp>,
    createdAt: Timestamp,
    updatedAt: Timestamp,
    createdBy: Id,
    categoryId: Option<Id>,
    orderInCategory: Option<int>)

  /** A personal category (`categories` row). */
  datatype Category = Category(id: Id, name: string, sequential: bool, createdBy: Id, createdAt: Timestamp)

  /** A user profile (`profiles` row); `role` is `'admin'` for administrators. */
  datatype Profile = Profile(id: Id, name: Option<string>, email: string, timezone: string, createdAt: Timestamp, role: string)

  /** The signed-in user of the identity provider. */
  datatype User = User(id: Id)

  /** An FAA checklist category (`faa_categories` row). */
  datatype FaaCategory = FaaCategory(id: Id, name: string, order: int, createdAt: Timestamp, updatedAt: Timestamp)

  /** An FAA checklist task (`faa_tasks` row). */
  datatype FaaTask = FaaTask(
    id: Id,
    faaCategoryId: Id,
    title: string,
    description: Option<string>,
    priority: Priority,
    orderInCategory: int,
    createdAt: Timestamp,
    updatedAt: Timestamp)

  /** A user's progress on one FAA task (`user_faa_tasks` row). */
  datatype UserFaaTask = UserFaaTask(
    id: Id,
    userId: Id,
    faaTaskId: Id,
    completed: bool,
    completedAt: Option<Timestamp>,
    createdAt: Timestamp)

  /** An FAA task with the current user's progress record, if there is one. */
  datatype FaaTaskWithProgress = FaaTaskWithProgress(task: FaaTask, userProgress: Option<UserFaaTask>)

  /** An FAA category with its tasks, as the checklist pages consume it. */
  datatype FaaCategoryWithTasks = FaaCategoryWithTasks(category: FaaCategory, faaTasks: seq<FaaTaskWithProgress>)

  /** The `{ data, error }` pair every database call resolves to. */
  datatype Reply<T> = Reply(data: Option<T>, error: Option<string>)

  /** One call of a card's `onToggleComplete(id, completed)` callback. */
  datatype ToggleCall = ToggleCall(id: Id, completed: bool)

  /** One call of a form's callbacks: `onSubmit(payload)` or `onClose()`. */
  datatype FormCall<P> = OnSubmit(payload: P) | OnClose

  /** The payload the personal task form submits (an `Insert` without `created_by`). */
  datatype TaskPayload = TaskPayload(
    id: Option<Id>,
    title: string,
    description: Option<string>,
    priority: Priority,
    scheduledFor: Option<Timestamp>,
    categoryId: Option<Id>,
    orderInCategory: Option<int>)

  /** The two shapes of task update the application sends. */
  datatype TaskUpdate = FormUpdate(payload: TaskPayload) | CompletedUpdate(completed: bool)

  /** The payload the FAA task form submits, for insert and for update alike. */
  datatype FaaTaskPayload = FaaTaskPayload(
    faaCategoryId: Id,
    title: string,
    description: Option<string>,
    priority: Priority,
    orderInCategory: int)

  /** The payload the category form submits. */
  datatype CategoryPayload = CategoryPayload(id: Option<Id>, name: string, sequential: bool)

  function TaskId(t: Task): Id { t.id }

  function CategoryId(c: Category): Id { c.id }
}
