/**
 * The personal dashboard (src/components/Dashboard.tsx): the category
 * filter, the to-do and completed lists, the tasks each category section
 * receives, and the handlers that route form submits and the delete-category
 * dialog to the list hooks.
 */
module Dashboard {
  import opened Wrappers
  import opened Lists
  import opened Rows
  import UseTasks
  import UseCategories

  const AllFilter: string := "all"
  const UncategorizedFilter: string := "uncategorized"

  /** `!task.category_id`: no category, or the empty string. */
  predicate HasNoCategory(t: Task)
  {
    t.categoryId.None? || t.categoryId == Some("")
  }

  /** `task.category_id === id`. */
  function InCategory(id: Id): Task -> bool
  {
    (t: Task) => t.categoryId == Some(id)
  }

  /** `filterTasksByCategory(taskList)` under the selected filter. */
  function FilterTasksByCategory(filter: string, tasks: seq<Task>): (r: seq<Task>)
    ensures IsSubsequence(r, tasks)
    ensures forall t :: t in r ==> t in tasks
    ensures filter == AllFilter ==> r == tasks
    ensures filter == UncategorizedFilter ==> forall t :: t in r <==> t in tasks && HasNoCategory(t)
    ensures filter != AllFilter && filter != UncategorizedFilter ==>
      forall t :: t in r <==> t in tasks && t.categoryId == Some(filter)
  {
    if filter == AllFilter then
      SubsequenceOfSelf(tasks);
      tasks
    else if filter == UncategorizedFilter then Filter(tasks, HasNoCategory)
    else Filter(tasks, InCategory(filter))
  }

  predicate IsTodo(t: Task)
  {
    !t.completed
  }

  predicate IsDone(t: Task)
  {
    t.completed
  }

  /** `todoTasks`. */
  function TodoTasks(filter: string, tasks: seq<Task>): seq<Task>
  {
    FilterTasksByCategory(filter, Filter(tasks, IsTodo))
  }

  /** `completedTasks`. */
  function CompletedTasks(filter: string, tasks: seq<Task>): seq<Task>
  {
    FilterTasksByCategory(filter, Filter(tasks, IsDone))
  }

  /** The to-do list holds only incomplete tasks and the completed list only
      completed ones; under the filter "all" they split the tasks between them. */
  lemma TodoAndCompletedSplit(filter: string, tasks: seq<Task>)
    ensures forall t :: t in TodoTasks(filter, tasks) ==> t in tasks && !t.completed
    ensures forall t :: t in CompletedTasks(filter, tasks) ==> t in tasks && t.completed
    ensures filter == AllFilter ==>
      multiset(TodoTasks(filter, tasks)) + multiset(CompletedTasks(filter, tasks)) == multiset(tasks)
      && |TodoTasks(filter, tasks)| + |CompletedTasks(filter, tasks)| == |tasks|
  {
    FilterPartition(tasks, IsTodo, IsDone);
  }

  /** `tasks.filter(task => task.category_id === category.id)`: taken from the
      unfiltered list. */
  function CategoryTasks(tasks: seq<Task>, id: Id): (r: seq<Task>)
    ensures forall t :: t in r <==> t in tasks && t.categoryId == Some(id)
    ensures IsSubsequence(r, tasks)
  {
    Filter(tasks, InCategory(id))
  }

  /** The skip test of a category section. */
  predicate SectionSkipped(categoryTasks: seq<Task>, filter: string, category: Category)
  {
    |categoryTasks| == 0 && filter != AllFilter && filter != category.id
  }

  datatype Section = Section(category: Category, tasks: seq<Task>)

  /** Whether a category gets a section. */
  function SectionShown(tasks: seq<Task>, filter: string): Category -> bool
  {
    (c: Category) => !SectionSkipped(CategoryTasks(tasks, c.id), filter, c)
  }

  /** The category sections of the task list, in category order, each with
      the unfiltered tasks of its category. */
  function CategorySections(categories: seq<Category>, tasks: seq<Task>, filter: string): (r: seq<Section>)
    ensures |r| <= |categories|
    ensures |r| == |Filter(categories, SectionShown(tasks, filter))|
    ensures forall i :: 0 <= i < |r| ==> r[i].category == Filter(categories, SectionShown(tasks, filter))[i]
    ensures forall i :: 0 <= i < |r| ==>
      r[i].category in categories && r[i].tasks == CategoryTasks(tasks, r[i].category.id)
      && !SectionSkipped(r[i].tasks, filter, r[i].category)
    ensures forall c :: c in categories && !SectionSkipped(CategoryTasks(tasks, c.id), filter, c) ==>
      exists i :: 0 <= i < |r| && r[i].category == c
  {
    var shown := Filter(categories, SectionShown(tasks, filter));
    var r := seq(|shown|, i requires 0 <= i < |shown| => Section(shown[i], CategoryTasks(tasks, shown[i].id)));
    assert forall c :: c in shown ==> exists i :: 0 <= i < |r| && r[i].category == c by {
      forall c | c in shown
        ensures exists i :: 0 <= i < |r| && r[i].category == c
      {
        var i :| 0 <= i < |shown| && shown[i] == c;
        assert r[i].category == c;
      }
    }
    r
  }

  /** A section is skipped only when it has no tasks and the filter is
      neither "all" nor its own category. */
  lemma SectionShownUnlessEmpty(categories: seq<Category>, tasks: seq<Task>, filter: string, c: Category)
    requires c in categories
    requires |CategoryTasks(tasks, c.id)| > 0 || filter == AllFilter || filter == c.id
    ensures exists i ::
      (0 <= i < |CategorySections(categories, tasks, filter)|
       && CategorySections(categories, tasks, filter)[i] == Section(c, CategoryTasks(tasks, c.id)))
  {
    var r := CategorySections(categories, tasks, filter);
    var i :| 0 <= i < |r| && r[i].category == c;
    assert r[i] == Section(c, CategoryTasks(tasks, c.id));
  }

  // ------------------------------------------------------------ delete-category dialog

  /** What the user does with the delete-category button and its dialog. */
  datatype DialogEvent = RequestDelete(id: Id) | ConfirmDelete | CancelDelete

  /** `categoryToDeleteId` and `showDeleteCategoryConfirmation`. */
  datatype DialogState = DialogState(pending: Option<Id>, open: bool)

  /** The dialog's state after some events, and the category ids deleted. */
  datatype DialogOutcome = DialogOutcome(state: DialogState, deleted: seq<Id>)

  /** One dialog event and the category ids it deletes. The dialog is only
      rendered while open, so its buttons act only then; `if (categoryToDeleteId)`
      skips the empty id, which then stays pending. */
  function DialogStep(s: DialogState, e: DialogEvent): (r: DialogOutcome)
    ensures e.RequestDelete? ==> r == DialogOutcome(DialogState(Some(e.id), true), [])
    ensures e.CancelDelete? && s.open ==> r == DialogOutcome(DialogState(None, false), [])
    ensures e.ConfirmDelete? && s.open ==> !r.state.open
    ensures e.ConfirmDelete? && s.open ==> (r.deleted != [] <==> s.pending.Some? && s.pending.value != "")
    ensures e.ConfirmDelete? && s.open && r.deleted != [] ==> r.deleted == [s.pending.value] && r.state.pending.None?
    ensures e.ConfirmDelete? && s.open && r.deleted == [] ==> r.state == DialogState(s.pending, false)
    ensures !e.RequestDelete? && !s.open ==> r == DialogOutcome(s, [])
  {
    match e
    case RequestDelete(id) => DialogOutcome(DialogState(Some(id), true), [])
    case ConfirmDelete =>
      if !s.open then DialogOutcome(s, [])
      else if s.pending.Some? && s.pending.value != "" then DialogOutcome(DialogState(None, false), [s.pending.value])
      else DialogOutcome(DialogState(s.pending, false), [])
    case CancelDelete => if !s.open then DialogOutcome(s, []) else DialogOutcome(DialogState(None, false), [])
  }

  function RunDialog(s: DialogState, events: seq<DialogEvent>): DialogOutcome
    decreases |events|
  {
    if events == [] then DialogOutcome(s, [])
    else
      var first := DialogStep(s, events[0]);
      var rest := RunDialog(first.state, events[1..]);
      DialogOutcome(rest.state, first.deleted + rest.deleted)
  }

  /** Only requested categories are deleted: every deleted id was pending at
      the start or was requested by one of the events. */
  lemma {:induction false} OnlyRequestedCategoriesDeleted(s: DialogState, events: seq<DialogEvent>)
    ensures forall id :: id in RunDialog(s, events).deleted ==>
      s.pending == Some(id) || RequestDelete(id) in events
    decreases |events|
  {
    if events != [] {
      var first := DialogStep(s, events[0]);
      OnlyRequestedCategoriesDeleted(first.state, events[1..]);
      assert forall e :: e in events[1..] ==> e in events;
      assert events[0] in events;
    }
  }

  /** A cancelled request deletes nothing, even if a confirm follows. */
  lemma CancelledRequestDeletesNothing(s: DialogState, id: Id)
    ensures RunDialog(s, [RequestDelete(id), CancelDelete, ConfirmDelete]) == DialogOutcome(DialogState(None, false), [])
  {
    var e := [RequestDelete(id), CancelDelete, ConfirmDelete];
    assert e[1..] == [CancelDelete, ConfirmDelete] && e[1..][1..] == [ConfirmDelete] && e[1..][1..][1..] == [];
    var closed := DialogState(None, false);
    assert RunDialog(closed, e[1..][1..]) == DialogOutcome(closed, []);
    assert RunDialog(DialogState(Some(id), true), e[1..]) == DialogOutcome(closed, []);
  }

  /** A confirmed request deletes exactly the requested category, once, when
      the second confirm comes after the first delete has been answered (the
      dialog is closed by then). */
  lemma ConfirmedRequestDeletesOnce(s: DialogState, id: Id)
    requires id != ""
    ensures RunDialog(s, [RequestDelete(id), ConfirmDelete, ConfirmDelete]) == DialogOutcome(DialogState(None, false), [id])
  {
    var e := [RequestDelete(id), ConfirmDelete, ConfirmDelete];
    assert e[1..] == [ConfirmDelete, ConfirmDelete] && e[1..][1..] == [ConfirmDelete] && e[1..][1..][1..] == [];
    var closed := DialogState(None, false);
    assert RunDialog(closed, e[1..][1..]) == DialogOutcome(closed, []);
    assert RunDialog(DialogState(Some(id), true), e[1..]) == DialogOutcome(closed, [id]);
  }

  // ------------------------------------------------------------ the dashboard's state

  class DashboardState {
    var showTaskForm: bool
    var showCategoryForm: bool
    var editingTask: Option<Task>
    var editingCategory: Option<Category>
    var selectedCategoryFilter: string
    var showDeleteCategoryConfirmation: bool
    var categoryToDeleteId: Option<Id>
    const tasksHook: UseTasks.TasksHook
    const categoriesHook: UseCategories.CategoriesHook

    function Dialog(): DialogState
      reads this
    {
      DialogState(categoryToDeleteId, showDeleteCategoryConfirmation)
    }

    constructor (tasksHook: UseTasks.TasksHook, categoriesHook: UseCategories.CategoriesHook)
      ensures this.tasksHook == tasksHook && this.categoriesHook == categoriesHook
      ensures !showTaskForm && !showCategoryForm && editingTask.None? && editingCategory.None?
      ensures selectedCategoryFilter == AllFilter
      ensures Dialog() == DialogState(None, false)
    {
      this.tasksHook := tasksHook;
      this.categoriesHook := categoriesHook;
      showTaskForm := false;
      showCategoryForm := false;
      editingTask := None;
      editingCategory := None;
      selectedCategoryFilter := AllFilter;
      showDeleteCategoryConfirmation := false;
      categoryToDeleteId := None;
    }

    /** `handleTaskSubmit`: update the task being edited (and stop editing it),
        or create a new one; then close the form. */
    method HandleTaskSubmit(taskData: TaskPayload, reply: Reply<Task>) returns (request: Option<UseTasks.TaskRequest>)
      modifies this, tasksHook
      ensures old(editingTask).Some? ==>
        request == Some(UseTasks.UpdateTaskRow(old(editingTask).value.id, FormUpdate(taskData)))
        && (reply.error.None? && reply.data.Some? ==>
              tasksHook.tasks == ReplaceMatching(old(tasksHook.tasks), TaskId, old(editingTask).value.id, reply.data.value))
      ensures old(editingTask).None? && tasksHook.user.Some? ==>
        request == Some(UseTasks.InsertTask(taskData, tasksHook.user.value.id))
        && (reply.error.None? && reply.data.Some? ==> tasksHook.tasks == [reply.data.value] + old(tasksHook.tasks))
      ensures old(editingTask).None? && tasksHook.user.None? ==> request.None? && tasksHook.tasks == old(tasksHook.tasks)
      ensures reply.error.Some? || reply.data.None? ==> tasksHook.tasks == old(tasksHook.tasks)
      ensures editingTask.None? && !showTaskForm
      ensures editingCategory == old(editingCategory) && Dialog() == old(Dialog())
      ensures showCategoryForm == old(showCategoryForm) && selectedCategoryFilter == old(selectedCategoryFilter)
      ensures tasksHook.loading == old(tasksHook.loading)
    {
      if editingTask.Some? {
        var req, data, error := tasksHook.UpdateTask(editingTask.value.id, FormUpdate(taskData), reply);
        request := Some(req);
        editingTask := None;
      } else {
        var data, error;
        request, data, error := tasksHook.CreateTask(taskData, reply);
      }
      showTaskForm := false;
    }

    /** `handleCategorySubmit`: update the category being edited (and stop
        editing it), or create a new one; then close the form. */
    method HandleCategorySubmit(categoryData: CategoryPayload, reply: Reply<Category>)
      returns (request: Option<UseCategories.CategoryRequest>)
      modifies this, categoriesHook
      ensures old(editingCategory).Some? ==>
        request == Some(UseCategories.UpdateCategoryRow(old(editingCategory).value.id, categoryData))
      ensures old(editingCategory).None? && categoriesHook.user.Some? ==>
        request == Some(UseCategories.InsertCategory(categoryData, categoriesHook.user.value.id))
      ensures old(editingCategory).None? && categoriesHook.user.None? ==> request.None?
      ensures old(editingCategory).Some? && reply.error.None? && reply.data.Some? ==>
        categoriesHook.categories
          == ReplaceMatching(old(categoriesHook.categories), CategoryId, old(editingCategory).value.id, reply.data.value)
      ensures old(editingCategory).None? && categoriesHook.user.Some? && reply.error.None? && reply.data.Some? ==>
        categoriesHook.categories == old(categoriesHook.categories) + [reply.data.value]
      ensures old(editingCategory).None? && categoriesHook.user.None? ==> categoriesHook.categories == old(categoriesHook.categories)
      ensures reply.error.Some? || reply.data.None? ==> categoriesHook.categories == old(categoriesHook.categories)
      ensures editingCategory.None? && !showCategoryForm
      ensures editingTask == old(editingTask) && Dialog() == old(Dialog())
      ensures showTaskForm == old(showTaskForm) && selectedCategoryFilter == old(selectedCategoryFilter)
      ensures categoriesHook.loading == old(categoriesHook.loading)
    {
      if editingCategory.Some? {
        var req, data, error := categoriesHook.UpdateCategory(editingCategory.value.id, categoryData, reply);
        request := Some(req);
        editingCategory := None;
      } else {
        var data, error;
        request, data, error := categoriesHook.CreateCategory(categoryData, reply);
      }
      showCategoryForm := false;
    }

    /** `handleEdit`: open the task form on a task. */
    method HandleEdit(task: Task)
      modifies this
      ensures editingTask == Some(task) && showTaskForm
      ensures editingCategory == old(editingCategory) && Dialog() == old(Dialog())
      ensures showCategoryForm == old(showCategoryForm) && selectedCategoryFilter == old(selectedCategoryFilter)
    {
      editingTask := Some(task);
      showTaskForm := true;
    }

    /** `handleEditCategory`: open the category form on a category. */
    method HandleEditCategory(category: Category)
      modifies this
      ensures editingCategory == Some(category) && showCategoryForm
      ensures editingTask == old(editingTask) && Dialog() == old(Dialog())
      ensures showTaskForm == old(showTaskForm) && selectedCategoryFilter == old(selectedCategoryFilter)
    {
      editingCategory := Some(category);
      showCategoryForm := true;
    }

    /** `handleDelete(id)`, with the answer to the browser's confirm prompt. */
    method HandleDelete(id: Id, confirmed: bool, deleteError: Option<string>) returns (request: Option<UseTasks.TaskRequest>)
      modifies tasksHook
      ensures confirmed ==> request == Some(UseTasks.DeleteTaskRow(id))
      ensures confirmed && deleteError.None? ==> tasksHook.tasks == RemoveMatching(old(tasksHook.tasks), TaskId, id)
      ensures confirmed && deleteError.Some? ==> tasksHook.tasks == old(tasksHook.tasks)
      ensures !confirmed ==> request.None? && tasksHook.tasks == old(tasksHook.tasks)
      ensures tasksHook.loading == old(tasksHook.loading)
    {
      request := None;
      if confirmed {
        var req, error := tasksHook.DeleteTask(id, deleteError);
        request := Some(req);
      }
    }

    /** `handleDeleteCategory(id)`: remember the id and open the dialog. */
    method HandleDeleteCategory(id: Id)
      modifies this
      ensures Dialog() == DialogStep(old(Dialog()), RequestDelete(id)).state
      ensures editingTask == old(editingTask) && editingCategory == old(editingCategory)
      ensures showTaskForm == old(showTaskForm) && showCategoryForm == old(showCategoryForm)
      ensures selectedCategoryFilter == old(selectedCategoryFilter)
    {
      categoryToDeleteId := Some(id);
      showDeleteCategoryConfirmation := true;
    }

    /** `handleConfirmDeleteCategory`, reached only while the dialog is open. */
    method HandleConfirmDeleteCategory(deleteError: Option<string>) returns (deleted: seq<Id>)
      requires showDeleteCategoryConfirmation
      modifies this, categoriesHook
      ensures DialogOutcome(Dialog(), deleted) == DialogStep(old(Dialog()), ConfirmDelete)
      ensures deleted != [] && deleteError.None? ==>
        categoriesHook.categories == RemoveMatching(old(categoriesHook.categories), CategoryId, deleted[0])
      ensures deleted == [] ==> categoriesHook.categories == old(categoriesHook.categories)
      ensures deleteError.Some? ==> categoriesHook.categories == old(categoriesHook.categories)
      ensures categoriesHook.loading == old(categoriesHook.loading)
      ensures editingTask == old(editingTask) && editingCategory == old(editingCategory)
      ensures showTaskForm == old(showTaskForm) && showCategoryForm == old(showCategoryForm)
      ensures selectedCategoryFilter == old(selectedCategoryFilter)
    {
      deleted := [];
      if categoryToDeleteId.Some? && categoryToDeleteId.value != "" {
        var request, error := categoriesHook.DeleteCategory(categoryToDeleteId.value, deleteError);
        deleted := [categoryToDeleteId.value];
        categoryToDeleteId := None;
      }
      showDeleteCategoryConfirmation := false;
    }

    /** `handleCancelDeleteCategory`, reached only while the dialog is open. */
    method HandleCancelDeleteCategory()
      requires showDeleteCategoryConfirmation
      modifies this
      ensures Dialog() == DialogStep(old(Dialog()), CancelDelete).state
      ensures editingTask == old(editingTask) && editingCategory == old(editingCategory)
      ensures showTaskForm == old(showTaskForm) && showCategoryForm == old(showCategoryForm)
      ensures selectedCategoryFilter == old(selectedCategoryFilter)
    {
      categoryToDeleteId := None;
      showDeleteCategoryConfirmation := false;
    }
  }
}
