/**
 * One FAA checklist category on the work page
 * (src/components/FAACategorySection.tsx): its counts, the lock of each of
 * its tasks, and the properties every task card receives.
 */
module FaaCategorySection {
  import opened Wrappers
  import opened Lists
  import opened Rows

  /** `task.user_progress?.completed`: a task without a progress record is not completed. */
  predicate IsTaskCompleted(t: FaaTaskWithProgress)
  {
    t.userProgress.Some? && t.userProgress.value.completed
  }

  predicate IsTaskIncomplete(t: FaaTaskWithProgress)
  {
    !IsTaskCompleted(t)
  }

  /** `every(task => task.user_progress?.completed)`: true of an empty category. */
  predicate AllTasksCompleted(c: FaaCategoryWithTasks)
  {
    forall i :: 0 <= i < |c.faaTasks| ==> IsTaskCompleted(c.faaTasks[i])
  }

  function TotalCount(c: FaaCategoryWithTasks): nat
  {
    |c.faaTasks|
  }

  /** `completedCount`: the number of tasks whose progress says completed. */
  function CompletedCount(c: FaaCategoryWithTasks): (n: nat)
    ensures n <= TotalCount(c)
    ensures n == TotalCount(c) <==> AllTasksCompleted(c)
  {
    FilterKeepsAll(c.faaTasks, IsTaskCompleted);
    |Filter(c.faaTasks, IsTaskCompleted)|
  }

  /** `isComplete`: the counts agree, which is the case exactly when every task is
      completed, and so also for a category without tasks. */
  predicate IsComplete(c: FaaCategoryWithTasks)
  {
    CompletedCount(c) == TotalCount(c)
  }

  /** The lock rule for the task at `taskIndex`: the whole category is locked,
      or a task before it is not completed. */
  predicate TaskLocked(c: FaaCategoryWithTasks, categoryLocked: bool, taskIndex: int)
  {
    categoryLocked || exists i :: 0 <= i < taskIndex && i < |c.faaTasks| && IsTaskIncomplete(c.faaTasks[i])
  }

  /** `getTaskLockStatus(taskIndex)`. */
  method GetTaskLockStatus(c: FaaCategoryWithTasks, isLocked: bool, taskIndex: nat) returns (locked: bool)
    requires taskIndex <= |c.faaTasks|
    ensures locked <==> isLocked || exists i :: 0 <= i < taskIndex && !IsTaskCompleted(c.faaTasks[i])
    ensures locked == TaskLocked(c, isLocked, taskIndex)
  {
    if isLocked {
      return true;
    }
    for i := 0 to taskIndex
      invariant forall j :: 0 <= j < i ==> IsTaskCompleted(c.faaTasks[j])
    {
      if !IsTaskCompleted(c.faaTasks[i]) {
        return true;
      }
    }
    return false;
  }

  /** Locks are monotone along the list: a locked task locks every later one. */
  lemma LockIsMonotone(c: FaaCategoryWithTasks, categoryLocked: bool, i: int, j: int)
    requires i <= j
    requires TaskLocked(c, categoryLocked, i)
    ensures TaskLocked(c, categoryLocked, j)
  {
    if !categoryLocked {
      var k :| 0 <= k < i && k < |c.faaTasks| && IsTaskIncomplete(c.faaTasks[k]);
      assert 0 <= k < j;
    }
  }

  /** In an unlocked category the only incomplete task that is not locked is
      the first incomplete one: the checklist is worked strictly in order. */
  lemma {:induction false} OnlyFirstIncompleteIsOpen(c: FaaCategoryWithTasks, i: nat)
    requires i < |c.faaTasks|
    requires IsTaskIncomplete(c.faaTasks[i])
    ensures !TaskLocked(c, false, i) <==> i == FindIndex(c.faaTasks, IsTaskIncomplete)
  {
    var k := FindIndex(c.faaTasks, IsTaskIncomplete);
    assert k >= 0 && k <= i;
    if k < i {
      assert TaskLocked(c, false, i);
    }
  }

  /** The properties a task card receives. */
  datatype CardProps = CardProps(task: FaaTaskWithProgress, isLocked: bool, sequentialOrder: int, canComplete: bool)

  /** The task list of the section: one card per task, in order, each locked by
      `getTaskLockStatus`, numbered by its own order and completable only when
      the whole category is not locked. */
  method TaskCards(c: FaaCategoryWithTasks, isLocked: bool) returns (cards: seq<CardProps>)
    ensures |cards| == |c.faaTasks|
    ensures forall i :: 0 <= i < |cards| ==>
      cards[i].task == c.faaTasks[i] && cards[i].canComplete == !isLocked
      && cards[i].sequentialOrder == c.faaTasks[i].task.orderInCategory
    ensures forall i :: 0 <= i < |cards| ==> (cards[i].isLocked <==> TaskLocked(c, isLocked, i))
    ensures isLocked ==> forall i :: 0 <= i < |cards| ==> cards[i].isLocked && !cards[i].canComplete
    ensures !isLocked && |cards| > 0 ==> !cards[0].isLocked
  {
    cards := [];
    for index := 0 to |c.faaTasks|
      invariant |cards| == index
      invariant forall i :: 0 <= i < index ==>
        cards[i].task == c.faaTasks[i] && cards[i].canComplete == !isLocked
        && cards[i].sequentialOrder == c.faaTasks[i].task.orderInCategory
      invariant forall i :: 0 <= i < index ==> (cards[i].isLocked <==> TaskLocked(c, isLocked, i))
    {
      var task := c.faaTasks[index];
      var isTaskLocked := GetTaskLockStatus(c, isLocked, index);
      cards := cards + [CardProps(task, isTaskLocked, task.task.orderInCategory, !isLocked)];
    }
  }

  /** The section's expanded state, initially `initialExpanded`. */
  class SectionState {
    var isExpanded: bool

    constructor (initialExpanded: bool)
      ensures isExpanded == initialExpanded
    {
      isExpanded := initialExpanded;
    }

    method ToggleExpanded()
      modifies this
      ensures isExpanded == !old(isExpanded)
    {
      isExpanded := !isExpanded;
    }
  }
}
