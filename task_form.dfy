/**
 * The personal task form (src/components/TaskForm.tsx): its fields, their
 * pre-fill from the task being edited, and the payload `handleSubmit`
 * hands to `onSubmit` before calling `onClose`. The date conversions of
 * `scheduled_for` are not modelled: the timestamp passes through as text.
 */
module TaskForm {
  import opened Wrappers
  import opened Rows
  import opened FormFields

  /** The form's inputs; an unset description, date or category is ''. */
  datatype TaskFields = TaskFields(
    title: string,
    description: string,
    priority: Priority,
    scheduledFor: string,
    categoryId: string)

  /** The initial state of the inputs: empty, with priority Medium. */
  const BlankFields: TaskFields := TaskFields("", "", Medium, "", "")

  /** The inputs the pre-fill effect sets from the task being edited. */
  function PrefilledFields(t: Task): (f: TaskFields)
    ensures f.title == t.title && f.priority == t.priority
    ensures f.description == "" <==> t.description.None? || t.description == Some("")
    ensures f.categoryId == "" <==> t.categoryId.None? || t.categoryId == Some("")
    ensures t.description.Some? ==> f.description == t.description.value
    ensures t.categoryId.Some? ==> f.categoryId == t.categoryId.value
  {
    TaskFields(t.title, EmptyIfNull(t.description), t.priority, EmptyIfNull(t.scheduledFor), EmptyIfNull(t.categoryId))
  }

  /** The payload built from the inputs: empty texts become null, a chosen
      category gets order 1 (the order is left to the database), and the id
      is set only when a task is being edited. */
  function SubmittedPayload(f: TaskFields, editing: Option<Task>): (p: TaskPayload)
    ensures p.title == f.title && p.priority == f.priority
    ensures p.id.Some? <==> editing.Some?
    ensures editing.Some? ==> p.id == Some(editing.value.id)
    ensures p.description.None? <==> f.description == ""
    ensures p.description.Some? ==> p.description.value == f.description
    ensures p.scheduledFor.None? <==> f.scheduledFor == ""
    ensures p.categoryId.None? <==> f.categoryId == ""
    ensures p.categoryId.Some? ==> p.categoryId.value == f.categoryId
    ensures p.orderInCategory.Some? <==> f.categoryId != ""
    ensures p.orderInCategory.Some? ==> p.orderInCategory.value == 1
  {
    var base := TaskPayload(None, f.title, NullIfEmpty(f.description), f.priority,
                            NullIfEmpty(f.scheduledFor), NullIfEmpty(f.categoryId),
                            if f.categoryId != "" then Some(1) else None);
    if editing.Some? then base.(id := Some(editing.value.id)) else base
  }

  /** Opening a task and submitting it unchanged sends back the task's own
      values, with an empty description or category as null, and its order
      reset to 1 when it has a category. */
  lemma UnchangedEditKeepsTask(t: Task)
    ensures var p := SubmittedPayload(PrefilledFields(t), Some(t));
      && p.id == Some(t.id) && p.title == t.title && p.priority == t.priority
      && p.description == (if t.description == Some("") then None else t.description)
      && p.categoryId == (if t.categoryId == Some("") then None else t.categoryId)
      && p.scheduledFor == (if t.scheduledFor == Some("") then None else t.scheduledFor)
      && (p.orderInCategory.Some? <==> p.categoryId.Some?)
  {
    NullIfEmptyAfterEmptyIfNull(t.description);
    NullIfEmptyAfterEmptyIfNull(t.categoryId);
    NullIfEmptyAfterEmptyIfNull(t.scheduledFor);
  }

  /** The form's state. */
  class TaskFormState {
    const task: Option<Task>
    var title: string
    var description: string
    var priority: Priority
    var scheduledFor: string
    var categoryId: string

    function Fields(): TaskFields
      reads this
    {
      TaskFields(title, description, priority, scheduledFor, categoryId)
    }

    constructor (task: Option<Task>)
      ensures this.task == task && Fields() == BlankFields
    {
      this.task := task;
      title := "";
      description := "";
      priority := Medium;
      scheduledFor := "";
      categoryId := "";
    }

    /** The pre-fill effect: only an edited task sets the inputs. */
    method PrefillEffect()
      modifies this
      ensures task.Some? ==> Fields() == PrefilledFields(task.value)
      ensures task.None? ==> Fields() == old(Fields())
    {
      if task.Some? {
        var t := task.value;
        title := t.title;
        description := EmptyIfNull(t.description);
        priority := t.priority;
        scheduledFor := EmptyIfNull(t.scheduledFor);
        categoryId := EmptyIfNull(t.categoryId);
      }
    }

    /** `handleSubmit`: build the payload, set its id when editing, then call
        `onSubmit` and `onClose`, in that order. */
    method HandleSubmit() returns (calls: seq<FormCall<TaskPayload>>)
      ensures calls == [OnSubmit(SubmittedPayload(Fields(), task)), OnClose]
    {
      var taskData := SubmittedPayload(Fields(), task);
      calls := [OnSubmit(taskData), OnClose];
    }
  }
}
