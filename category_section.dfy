/**
 * The personal-category sequencer (src/components/CategorySection.tsx):
 * which of a category's tasks the active tab shows, in which order, which
 * of them are locked, and the counts shown in the section header.
 */
module CategorySection {
  import opened Wrappers
  import opened Lists
  import opened Rows

  datatype Tab = Todo | Completed

  datatype SortOrder = PriorityDesc | PriorityAsc

  /** The order given to a task that has none (`order_in_category || 999`). */
  const MissingOrder: int := 999

  /** The priority ranks of the sort comparator. */
  function Rank(p: Priority): int
  {
    match p
    case High => 3
    case Medium => 2
    case Low => 1
  }

  /** `order_in_category || 999`: a missing order and the order 0 both sort as 999. */
  function OrderKey(t: Task): (k: int)
    ensures k != 0
    ensures t.orderInCategory.None? || t.orderInCategory == Some(0) ==> k == MissingOrder
    ensures t.orderInCategory.Some? && t.orderInCategory.value != 0 ==> k == t.orderInCategory.value
  {
    match t.orderInCategory
    case Some(n) => if n != 0 then n else MissingOrder
    case None => MissingOrder
  }

  /** Whether the tab shows the task: `todo` shows the incomplete ones, `completed` the others. */
  predicate InTab(t: Task, tab: Tab)
  {
    if tab == Todo then !t.completed else t.completed
  }

  function TabFilter(tab: Tab): Task -> bool
  {
    (t: Task) => InTab(t, tab)
  }

  function FilterByTab(tasks: seq<Task>, tab: Tab): seq<Task>
  {
    Filter(tasks, TabFilter(tab))
  }

  /** The comparator of the displayed list: priority rank (descending or
      ascending), then the order key ascending. */
  function DisplayKey(order: SortOrder): Task -> SortKey
  {
    (t: Task) => SortKey(if order == PriorityDesc then -Rank(t.priority) else Rank(t.priority), OrderKey(t))
  }

  /** `filteredAndSortedTasks`: the tasks of the active tab, sorted for display. */
  function Displayed(tasks: seq<Task>, tab: Tab, order: SortOrder): (r: seq<Task>)
    ensures multiset(r) == multiset(FilterByTab(tasks, tab))
    ensures forall t :: t in r <==> t in tasks && InTab(t, tab)
    ensures forall i, j :: 0 <= i < j < |r| ==>
      if order == PriorityDesc then Rank(r[i].priority) >= Rank(r[j].priority)
      else Rank(r[i].priority) <= Rank(r[j].priority)
    ensures forall i, j :: 0 <= i < j < |r| && r[i].priority == r[j].priority ==> OrderKey(r[i]) <= OrderKey(r[j])
  {
    var filtered := FilterByTab(tasks, tab);
    var r := StableSort(filtered, DisplayKey(order));
    SameElements(r, filtered);
    DisplayOrderMeaning(r, order);
    r
  }

  /** What sortedness by the display comparator means for priorities and order keys. */
  lemma DisplayOrderMeaning(r: seq<Task>, order: SortOrder)
    requires SortedBy(r, DisplayKey(order))
    ensures forall i, j :: 0 <= i < j < |r| ==>
      if order == PriorityDesc then Rank(r[i].priority) >= Rank(r[j].priority)
      else Rank(r[i].priority) <= Rank(r[j].priority)
    ensures forall i, j :: 0 <= i < j < |r| && r[i].priority == r[j].priority ==> OrderKey(r[i]) <= OrderKey(r[j])
  {
    forall i, j | 0 <= i < j < |r|
      ensures KeyLe(DisplayKey(order)(r[i]), DisplayKey(order)(r[j]))
    {
    }
  }

  function CanonicalKey(t: Task): SortKey
  {
    SortKey(OrderKey(t), 0)
  }

  /** `allTasksInOrder`: the full, unfiltered list sorted by order key alone. */
  function CanonicalOrder(tasks: seq<Task>): (r: seq<Task>)
    ensures multiset(r) == multiset(tasks)
    ensures forall i, j :: 0 <= i < j < |r| ==> OrderKey(r[i]) <= OrderKey(r[j])
  {
    var r := StableSort(tasks, CanonicalKey);
    assert forall i, j :: 0 <= i < j < |r| ==> KeyLe(CanonicalKey(r[i]), CanonicalKey(r[j]));
    r
  }

  /** `findIndex(t => t.id === id)`: the first position holding that id, or -1. */
  function IndexOfId(s: seq<Task>, id: Id): (k: int)
    ensures -1 <= k < |s|
    ensures k == -1 <==> forall i :: 0 <= i < |s| ==> s[i].id != id
    ensures k >= 0 ==> s[k].id == id && forall i :: 0 <= i < k ==> s[i].id != id
  {
    FindIndex(s, (t: Task) => t.id == id)
  }

  /** Every task before position `k` of `c` is completed. */
  predicate CompletedBefore(c: seq<Task>, k: int)
  {
    forall j :: 0 <= j < k && j < |c| ==> c[j].completed
  }

  /** The lock rule: in a sequential category the task with this id is locked
      iff a task before its first occurrence in the canonical order of the
      full list is incomplete. */
  predicate TaskLocked(category: Category, tasks: seq<Task>, id: Id)
  {
    var c := CanonicalOrder(tasks);
    category.sequential && !CompletedBefore(c, IndexOfId(c, id))
  }

  /** `getTaskLockStatus(taskIndex)` for the card at `taskIndex` of the displayed list. */
  method GetTaskLockStatus(category: Category, tasks: seq<Task>, tab: Tab, order: SortOrder, taskIndex: nat)
    returns (locked: bool)
    requires taskIndex < |Displayed(tasks, tab, order)|
    ensures locked == TaskLocked(category, tasks, Displayed(tasks, tab, order)[taskIndex].id)
    ensures !category.sequential ==> !locked
  {
    if !category.sequential {
      return false;
    }
    var allTasksInOrder := CanonicalOrder(tasks);
    var currentTask := Displayed(tasks, tab, order)[taskIndex];
    var currentTaskOrderIndex := IndexOfId(allTasksInOrder, currentTask.id);
    var i := 0;
    while i < currentTaskOrderIndex
      invariant 0 <= i <= |allTasksInOrder|
      invariant currentTaskOrderIndex >= 0 ==> i <= currentTaskOrderIndex
      invariant CompletedBefore(allTasksInOrder, i)
    {
      if !allTasksInOrder[i].completed {
        return true;
      }
      i := i + 1;
    }
    return false;
  }

  /** The task first in canonical order is never locked. */
  lemma FirstInCanonicalOrderUnlocked(category: Category, tasks: seq<Task>)
    requires tasks != []
    ensures |CanonicalOrder(tasks)| == |tasks|
    ensures !TaskLocked(category, tasks, CanonicalOrder(tasks)[0].id)
  {
    var c := CanonicalOrder(tasks);
    assert |multiset(c)| == |multiset(tasks)|;
    assert IndexOfId(c, c[0].id) == 0;
  }

  /** Among tasks with the same order key the canonical order is the input
      order, because the sort is stable. */
  lemma TiesKeepInputOrder(tasks: seq<Task>, key: int)
    ensures WithKey(CanonicalOrder(tasks), CanonicalKey, SortKey(key, 0))
         == WithKey(tasks, CanonicalKey, SortKey(key, 0))
  {
    StableSortIsStable(tasks, CanonicalKey, SortKey(key, 0));
  }

  /** Every displayed task has a position in the canonical order. */
  lemma DisplayedTaskIsCanonical(tasks: seq<Task>, tab: Tab, order: SortOrder, taskIndex: nat)
    requires taskIndex < |Displayed(tasks, tab, order)|
    ensures IndexOfId(CanonicalOrder(tasks), Displayed(tasks, tab, order)[taskIndex].id) >= 0
  {
    var t := Displayed(tasks, tab, order)[taskIndex];
    assert t in tasks;
    assert t in multiset(CanonicalOrder(tasks));
    assert t in CanonicalOrder(tasks);
  }

  /** The intended data: no two tasks share an id or an order key. */
  predicate DistinctIdsAndOrders(tasks: seq<Task>)
  {
    forall i, j :: 0 <= i < j < |tasks| ==> tasks[i].id != tasks[j].id && OrderKey(tasks[i]) != OrderKey(tasks[j])
  }

  lemma SameIdOrOrderIsSameTask(tasks: seq<Task>, a: Task, b: Task)
    requires DistinctIdsAndOrders(tasks)
    requires a in tasks && b in tasks
    requires a.id == b.id || OrderKey(a) == OrderKey(b)
    ensures a == b
  {
    var i :| 0 <= i < |tasks| && tasks[i] == a;
    var j :| 0 <= j < |tasks| && tasks[j] == b;
    if i < j {
      assert false;
    } else if j < i {
      assert false;
    }
  }

  /** With distinct ids and distinct order keys, the lock rule needs no
      sorting: a task is locked iff the category is sequential and some
      incomplete task has a smaller order key. */
  lemma LockedIffSmallerOrderIncomplete(category: Category, tasks: seq<Task>, t: Task)
    requires t in tasks
    requires DistinctIdsAndOrders(tasks)
    ensures TaskLocked(category, tasks, t.id) <==>
      category.sequential && exists u :: u in tasks && !u.completed && OrderKey(u) < OrderKey(t)
  {
    var c := CanonicalOrder(tasks);
    SameElements(c, tasks);
    var k := IndexOfId(c, t.id);
    assert k >= 0;
    SameIdOrOrderIsSameTask(tasks, c[k], t);
    IncompleteBeforeIffSmallerOrder(c, tasks, k);
  }

  lemma IncompleteBeforeIffSmallerOrder(c: seq<Task>, tasks: seq<Task>, k: int)
    requires forall x :: x in c <==> x in tasks
    requires forall i, j :: 0 <= i < j < |c| ==> OrderKey(c[i]) <= OrderKey(c[j])
    requires DistinctIdsAndOrders(tasks)
    requires 0 <= k < |c|
    requires forall i :: 0 <= i < k ==> c[i].id != c[k].id
    ensures !CompletedBefore(c, k) <==> exists u :: u in tasks && !u.completed && OrderKey(u) < OrderKey(c[k])
  {
    if !CompletedBefore(c, k) {
      var j :| 0 <= j < k && j < |c| && !c[j].completed;
      if OrderKey(c[j]) == OrderKey(c[k]) {
        SameIdOrOrderIsSameTask(tasks, c[j], c[k]);
      }
      assert c[j] in tasks;
    }
    if exists u :: u in tasks && !u.completed && OrderKey(u) < OrderKey(c[k]) {
      var u :| u in tasks && !u.completed && OrderKey(u) < OrderKey(c[k]);
      assert u in c;
      var j :| 0 <= j < |c| && c[j] == u;
      assert j < k;
    }
  }

  /** With distinct ids and order keys, locks are monotone in the order key. */
  lemma LockIsMonotone(category: Category, tasks: seq<Task>, t: Task, t': Task)
    requires t in tasks && t' in tasks
    requires DistinctIdsAndOrders(tasks)
    requires OrderKey(t) < OrderKey(t')
    requires TaskLocked(category, tasks, t.id)
    ensures TaskLocked(category, tasks, t'.id)
  {
    LockedIffSmallerOrderIncomplete(category, tasks, t);
    LockedIffSmallerOrderIncomplete(category, tasks, t');
  }

  /** `completedCount`: taken over the full list, whatever the tab. */
  function CompletedCount(tasks: seq<Task>): (n: nat)
    ensures n <= |tasks|
    ensures n + |FilterByTab(tasks, Todo)| == |tasks|
    ensures n == |tasks| <==> forall i :: 0 <= i < |tasks| ==> tasks[i].completed
  {
    FilterPartition(tasks, TabFilter(Completed), TabFilter(Todo));
    FilterKeepsAll(tasks, TabFilter(Completed));
    |FilterByTab(tasks, Completed)|
  }

  /** The step number a card shows: `order_in_category || index + 1`. It agrees
      with the order key whenever the task has an order of its own. */
  function StepNumber(t: Task, index: nat): (n: int)
    ensures n != 0
    ensures t.orderInCategory.Some? && t.orderInCategory.value != 0 ==> n == OrderKey(t)
    ensures t.orderInCategory.None? || t.orderInCategory == Some(0) ==> n == index + 1
  {
    match t.orderInCategory
    case Some(v) => if v != 0 then v else index + 1
    case None => index + 1
  }

  /** The section's own view state: expanded or collapsed, and the sort order. */
  class SectionState {
    var isExpanded: bool
    var sortOrder: SortOrder

    constructor ()
      ensures isExpanded && sortOrder == PriorityDesc
    {
      isExpanded := true;
      sortOrder := PriorityDesc;
    }

    method ToggleExpanded()
      modifies this
      ensures isExpanded == !old(isExpanded) && sortOrder == old(sortOrder)
    {
      isExpanded := !isExpanded;
    }

    method SetSortOrder(order: SortOrder)
      modifies this
      ensures sortOrder == order && isExpanded == old(isExpanded)
    {
      sortOrder := order;
    }
  }
}
