/**
 * The personal task list hook (src/hooks/useTasks.ts): the `tasks` and
 * `loading` state and how each database call's reply changes them. The
 * reply of each call is a parameter; each method returns the request it sends.
 */
module UseTasks {
  import opened Wrappers
  import opened Lists
  import opened Rows

  /** The requests the hook sends to the `tasks` table. */
  datatype TaskRequest =
    | InsertTask(payload: TaskPayload, createdBy: Id)
    | UpdateTaskRow(id: Id, updates: TaskUpdate)
    | DeleteTaskRow(id: Id)

  const NotAuthenticated: string := "User not authenticated"

  /** A created task goes in front; deleting it again gives back the list
      it was created in, when its id was new. */
  lemma DeleteUndoesCreate(tasks: seq<Task>, created: Task)
    requires forall t :: t in tasks ==> t.id != created.id
    ensures RemoveMatching([created] + tasks, TaskId, created.id) == tasks
  {
    PrependThenRemove(tasks, TaskId, created);
  }

  /** Deleting a task after updating it is the same as deleting it. */
  lemma DeleteAfterUpdate(tasks: seq<Task>, id: Id, updated: Task)
    requires updated.id == id
    ensures RemoveMatching(ReplaceMatching(tasks, TaskId, id, updated), TaskId, id) == RemoveMatching(tasks, TaskId, id)
  {
    ReplaceThenRemove(tasks, TaskId, id, updated);
  }

  /** Deleting the same id twice changes nothing the second time. */
  lemma DeleteIsIdempotent(tasks: seq<Task>, id: Id)
    ensures RemoveMatching(RemoveMatching(tasks, TaskId, id), TaskId, id) == RemoveMatching(tasks, TaskId, id)
  {
    RemoveIsIdempotent(tasks, TaskId, id);
  }

  /** An update that returns the row with the same id keeps ids unique. */
  lemma UpdateKeepsIdsUnique(tasks: seq<Task>, id: Id, updated: Task)
    requires UniqueKeys(tasks, TaskId)
    requires updated.id == id
    ensures UniqueKeys(ReplaceMatching(tasks, TaskId, id, updated), TaskId)
  {
    ReplaceKeepsUniqueKeys(tasks, TaskId, id, updated);
  }

  class TasksHook {
    var tasks: seq<Task>
    var loading: bool
    const user: Option<User>

    constructor (user: Option<User>)
      ensures tasks == [] && loading && this.user == user
    {
      tasks := [];
      loading := true;
      this.user := user;
    }

    /** `fetchTasks`: without a user nothing happens; otherwise the list
        becomes the reply's rows (or empty), unless the reply is an error. */
    method FetchTasks(reply: Reply<seq<Task>>)
      modifies this
      ensures user.None? ==> tasks == old(tasks) && loading == old(loading)
      ensures user.Some? ==> !loading
      ensures user.Some? && reply.error.Some? ==> tasks == old(tasks)
      ensures user.Some? && reply.error.None? ==> tasks == reply.data.GetOr([])
    {
      if user.None? {
        return;
      }
      loading := true;
      if reply.error.None? {
        tasks := reply.data.GetOr([]);
      }
      loading := false;
    }

    /** `createTask(task)`: a successful insert puts the returned row in front. */
    method CreateTask(task: TaskPayload, reply: Reply<Task>)
      returns (request: Option<TaskRequest>, data: Option<Task>, error: Option<string>)
      modifies this
      ensures user.None? ==> request.None? && data.None? && error == Some(NotAuthenticated)
      ensures user.Some? ==> request == Some(InsertTask(task, user.value.id)) && data == reply.data && error == reply.error
      ensures user.Some? && reply.error.None? && reply.data.Some? ==> tasks == [reply.data.value] + old(tasks)
      ensures user.None? || reply.error.Some? || reply.data.None? ==> tasks == old(tasks)
      ensures loading == old(loading)
    {
      if user.None? {
        return None, None, Some(NotAuthenticated);
      }
      request := Some(InsertTask(task, user.value.id));
      if reply.error.None? && reply.data.Some? {
        tasks := [reply.data.value] + tasks;
      }
      data, error := reply.data, reply.error;
    }

    /** `updateTask(id, updates)`: a successful update replaces every task with
        that id by the returned row. There is no user check. */
    method UpdateTask(id: Id, updates: TaskUpdate, reply: Reply<Task>)
      returns (request: TaskRequest, data: Option<Task>, error: Option<string>)
      modifies this
      ensures request == UpdateTaskRow(id, updates) && data == reply.data && error == reply.error
      ensures reply.error.None? && reply.data.Some? ==> tasks == ReplaceMatching(old(tasks), TaskId, id, reply.data.value)
      ensures reply.error.Some? || reply.data.None? ==> tasks == old(tasks)
      ensures loading == old(loading)
    {
      request := UpdateTaskRow(id, updates);
      if reply.error.None? && reply.data.Some? {
        tasks := ReplaceMatching(tasks, TaskId, id, reply.data.value);
      }
      data, error := reply.data, reply.error;
    }

    /** `deleteTask(id)`: a successful delete drops every task with that id. */
    method DeleteTask(id: Id, deleteError: Option<string>)
      returns (request: TaskRequest, error: Option<string>)
      modifies this
      ensures request == DeleteTaskRow(id) && error == deleteError
      ensures deleteError.None? ==> tasks == RemoveMatching(old(tasks), TaskId, id)
      ensures deleteError.Some? ==> tasks == old(tasks)
      ensures loading == old(loading)
    {
      request := DeleteTaskRow(id);
      if deleteError.None? {
        tasks := RemoveMatching(tasks, TaskId, id);
      }
      error := deleteError;
    }

    /** `toggleComplete(id, completed)` is `updateTask(id, { completed })`. */
    method ToggleComplete(id: Id, completed: bool, reply: Reply<Task>)
      returns (request: TaskRequest, data: Option<Task>, error: Option<string>)
      modifies this
      ensures request == UpdateTaskRow(id, CompletedUpdate(completed)) && data == reply.data && error == reply.error
      ensures reply.error.None? && reply.data.Some? ==> tasks == ReplaceMatching(old(tasks), TaskId, id, reply.data.value)
      ensures reply.error.Some? || reply.data.None? ==> tasks == old(tasks)
      ensures loading == old(loading)
    {
      request, data, error := UpdateTask(id, CompletedUpdate(completed), reply);
    }
  }
}
