/**
 * The personal task card (src/components/TaskCard.tsx): which of its
 * buttons react while the task is locked, and which checkbox icon it shows.
 */
module TaskCard {
  import opened Wrappers
  import opened Rows

  /** The card's three buttons. */
  datatype Button = CheckboxButton | EditButton | DeleteButton

  /** The callback a button press makes. */
  datatype CardCall = OnToggleComplete(call: ToggleCall) | OnEdit(task: Task) | OnDelete(id: Id)

  /** Pressing a button: the checkbox and edit are disabled while locked, the
      delete button never is. */
  function Press(task: Task, isLocked: bool, b: Button): (r: Option<CardCall>)
    ensures isLocked ==> (r.Some? <==> b == DeleteButton)
    ensures !isLocked ==> r.Some?
    ensures b == DeleteButton ==> r == Some(OnDelete(task.id))
    ensures !isLocked && b == CheckboxButton ==> r == Some(OnToggleComplete(ToggleCall(task.id, !task.completed)))
    ensures !isLocked && b == EditButton ==> r == Some(OnEdit(task))
    ensures r.Some? && r.value.OnToggleComplete? ==>
      r.value.call.id == task.id && r.value.call.completed != task.completed
  {
    match b
    case CheckboxButton => if isLocked then None else Some(OnToggleComplete(ToggleCall(task.id, !task.completed)))
    case EditButton => if isLocked then None else Some(OnEdit(task))
    case DeleteButton => Some(OnDelete(task.id))
  }

  datatype Icon = LockIcon | CheckIcon | CircleIcon

  /** The checkbox icon: the lock takes precedence over the completion state. */
  function CheckboxIcon(task: Task, isLocked: bool): (i: Icon)
    ensures i == LockIcon <==> isLocked
    ensures i == CheckIcon <==> !isLocked && task.completed
    ensures i == CircleIcon <==> !isLocked && !task.completed
  {
    if isLocked then LockIcon else if task.completed then CheckIcon else CircleIcon
  }
}
