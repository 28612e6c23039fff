/**
 * The FAA task card (src/components/FAATaskCard.tsx) with its confirmation
 * dialog (src/components/ConfirmationDialog.tsx): completing a task asks for
 * confirmation, un-completing it does not, and a locked or non-completable
 * card ignores clicks. Each handler returns the `onToggleComplete` calls it
 * makes.
 */
module FaaTaskCard {
  import opened Wrappers
  import opened Rows
  import S = FaaCategorySection

  /** What the user can do to a card: click its checkbox, or press one of the
      buttons of the confirmation dialog. */
  datatype CardEvent = Click | Confirm | Cancel

  /** Whether the card and its dialog are open, and the calls made so far. */
  datatype CardOutcome = CardOutcome(showConfirmation: bool, calls: seq<ToggleCall>)

  /** Whether the checkbox reacts at all: the button is disabled and the
      handler does nothing when the task is locked or cannot be completed. */
  predicate Clickable(isLocked: bool, canComplete: bool)
  {
    canComplete && !isLocked
  }

  /** One event on the card with its dialog. The dialog renders nothing while
      closed, so its buttons only act while it is open. */
  function Step(task: FaaTaskWithProgress, isLocked: bool, canComplete: bool, open: bool, e: CardEvent): (r: CardOutcome)
    ensures |r.calls| <= 1
    ensures e == Click && Clickable(isLocked, canComplete) && !S.IsTaskCompleted(task) ==> r == CardOutcome(true, [])
    ensures e == Click && Clickable(isLocked, canComplete) && S.IsTaskCompleted(task) ==>
      r == CardOutcome(open, [ToggleCall(task.task.id, false)])
    ensures e == Click && !Clickable(isLocked, canComplete) ==> r == CardOutcome(open, [])
    ensures e != Click ==> !r.showConfirmation
    ensures e == Confirm && open ==> r.calls == [ToggleCall(task.task.id, true)]
    ensures (e == Cancel || !open) && e != Click ==> r.calls == []
  {
    match e
    case Click =>
      if Clickable(isLocked, canComplete) && !S.IsTaskCompleted(task) then CardOutcome(true, [])
      else if Clickable(isLocked, canComplete) then CardOutcome(open, [ToggleCall(task.task.id, false)])
      else CardOutcome(open, [])
    case Confirm => if open then CardOutcome(false, [ToggleCall(task.task.id, true)]) else CardOutcome(false, [])
    case Cancel => CardOutcome(false, [])
  }

  /** A sequence of events, from a given dialog state. */
  function Run(task: FaaTaskWithProgress, isLocked: bool, canComplete: bool, open: bool, events: seq<CardEvent>): CardOutcome
    decreases |events|
  {
    if events == [] then CardOutcome(open, [])
    else
      var first := Step(task, isLocked, canComplete, open, events[0]);
      var rest := Run(task, isLocked, canComplete, first.showConfirmation, events[1..]);
      CardOutcome(rest.showConfirmation, first.calls + rest.calls)
  }

  /** A locked or non-completable card whose dialog is closed never opens it
      and never calls `onToggleComplete`, whatever the user does. */
  lemma {:induction false} LockedCardNeverToggles(task: FaaTaskWithProgress, isLocked: bool, canComplete: bool, events: seq<CardEvent>)
    requires !Clickable(isLocked, canComplete)
    ensures Run(task, isLocked, canComplete, false, events) == CardOutcome(false, [])
    decreases |events|
  {
    if events != [] {
      LockedCardNeverToggles(task, isLocked, canComplete, events[1..]);
    }
  }

  /** Nothing completes a task without a Confirm: every `completed = true`
      call is made by the dialog's confirm button. */
  lemma {:induction false} CompletionNeedsConfirm(task: FaaTaskWithProgress, isLocked: bool, canComplete: bool,
                                                  open: bool, events: seq<CardEvent>)
    requires Confirm !in events
    ensures forall c :: c in Run(task, isLocked, canComplete, open, events).calls ==> !c.completed
    decreases |events|
  {
    if events != [] {
      var first := Step(task, isLocked, canComplete, open, events[0]);
      assert events[0] in events;
      assert forall e :: e in events[1..] ==> e in events;
      CompletionNeedsConfirm(task, isLocked, canComplete, first.showConfirmation, events[1..]);
    }
  }

  /** Confirming completes exactly once: the dialog closes, so a second
      confirm does nothing. */
  lemma ConfirmCompletesOnce(task: FaaTaskWithProgress, isLocked: bool, canComplete: bool)
    requires Clickable(isLocked, canComplete) && !S.IsTaskCompleted(task)
    ensures Run(task, isLocked, canComplete, false, [Click, Confirm, Confirm])
         == CardOutcome(false, [ToggleCall(task.task.id, true)])
  {
    var e := [Click, Confirm, Confirm];
    assert e[1..] == [Confirm, Confirm] && e[1..][1..] == [Confirm] && e[1..][1..][1..] == [];
  }

  /** The card's state: its properties and the `showConfirmation` flag. */
  class Card {
    const task: FaaTaskWithProgress
    const isLocked: bool
    const canComplete: bool
    var showConfirmation: bool

    constructor (task: FaaTaskWithProgress, isLocked: bool, canComplete: bool)
      ensures this.task == task && this.isLocked == isLocked && this.canComplete == canComplete
      ensures !showConfirmation
    {
      this.task := task;
      this.isLocked := isLocked;
      this.canComplete := canComplete;
      showConfirmation := false;
    }

    /** `handleToggleClick`. */
    method HandleToggleClick() returns (calls: seq<ToggleCall>)
      modifies this
      ensures CardOutcome(showConfirmation, calls) == Step(task, isLocked, canComplete, old(showConfirmation), Click)
    {
      var isCompleted := S.IsTaskCompleted(task);
      calls := [];
      if canComplete && !isLocked && !isCompleted {
        showConfirmation := true;
      } else if canComplete && !isLocked && isCompleted {
        calls := [ToggleCall(task.task.id, false)];
      }
    }

    /** `handleConfirmComplete`. */
    method HandleConfirmComplete() returns (calls: seq<ToggleCall>)
      modifies this
      ensures calls == [ToggleCall(task.task.id, true)] && !showConfirmation
    {
      calls := [ToggleCall(task.task.id, true)];
      showConfirmation := false;
    }

    /** `handleCancelComplete`. */
    method HandleCancelComplete()
      modifies this
      ensures !showConfirmation
    {
      showConfirmation := false;
    }

    /** An event delivered to the card: a click reaches `handleToggleClick`;
        the dialog's buttons exist, and reach their handlers, only while
        `showConfirmation` is set. */
    method Dispatch(e: CardEvent) returns (calls: seq<ToggleCall>)
      modifies this
      ensures CardOutcome(showConfirmation, calls) == Step(task, isLocked, canComplete, old(showConfirmation), e)
    {
      match e
      case Click =>
        calls := HandleToggleClick();
      case Confirm =>
        if showConfirmation {
          calls := HandleConfirmComplete();
        } else {
          calls := [];
        }
      case Cancel =>
        calls := [];
        if showConfirmation {
          HandleCancelComplete();
        }
    }
  }
}
