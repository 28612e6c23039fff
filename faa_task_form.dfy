/**
 * The FAA task form of the administration panel
 * (src/components/FAATaskForm.tsx): its defaults, the effect that pre-fills
 * it from the edited task or derives the next order number of the selected
 * category, the order input's `parseInt(value) || 1`, and the payload
 * `handleSubmit` hands to `onSubmit` before calling `onClose`.
 */
module FaaTaskForm {
  import opened Wrappers
  import opened Lists
  import opened Rows
  import opened FormFields

  // ------------------------------------------------------------ parseInt

  predicate IsDigit(c: char)
  {
    '0' <= c <= '9'
  }

  function DigitValue(c: char): (d: nat)
    requires IsDigit(c)
    ensures d < 10
  {
    c as int - '0' as int
  }

  function DigitChar(d: nat): (c: char)
    requires d < 10
    ensures IsDigit(c) && DigitValue(c) == d
  {
    ('0' as int + d) as char
  }

  /** The length of the run of digits at the start of `s`. */
  function DigitRun(s: string): (n: nat)
    ensures n <= |s|
    ensures forall i :: 0 <= i < n ==> IsDigit(s[i])
    ensures n < |s| ==> !IsDigit(s[n])
  {
    if s == [] || !IsDigit(s[0]) then 0 else 1 + DigitRun(s[1..])
  }

  /** The value of a string of decimal digits. */
  function DigitsValue(s: string): nat
    requires forall i :: 0 <= i < |s| ==> IsDigit(s[i])
  {
    if s == [] then 0 else 10 * DigitsValue(s[..|s| - 1]) + DigitValue(s[|s| - 1])
  }

  /** JavaScript's `parseInt(s)` on the value of a number input: an optional
      sign, then the longest run of decimal digits; the rest of the text (a
      fraction or an exponent) is ignored. No digits is NaN, here `None`. */
  function ParseInt(s: string): (r: Option<int>)
    ensures r.None? <==> DigitRun(if s != [] && (s[0] == '-' || s[0] == '+') then s[1..] else s) == 0
  {
    var negative := s != [] && s[0] == '-';
    var unsigned := if s != [] && (s[0] == '-' || s[0] == '+') then s[1..] else s;
    var n := DigitRun(unsigned);
    if n == 0 then None
    else
      var v: int := DigitsValue(unsigned[..n]);
      Some(if negative then -v else v)
  }

  /** The decimal text of a natural number, without leading zeros. */
  function Decimal(n: nat): (s: string)
    ensures |s| >= 1
    ensures forall i :: 0 <= i < |s| ==> IsDigit(s[i])
  {
    if n < 10 then [DigitChar(n)] else Decimal(n / 10) + [DigitChar(n % 10)]
  }

  lemma {:induction false} DecimalValue(n: nat)
    ensures DigitsValue(Decimal(n)) == n
  {
    if n >= 10 {
      var s := Decimal(n);
      assert s[..|s| - 1] == Decimal(n / 10);
      DecimalValue(n / 10);
    }
  }

  /** `parseInt` reads back the decimal text of a number, with or without a sign. */
  lemma ParseIntReadsDecimal(n: nat)
    ensures ParseInt(Decimal(n)) == Some(n)
    ensures ParseInt("-" + Decimal(n)) == Some(-(n as int))
  {
    var s := Decimal(n);
    assert DigitRun(s) == |s|;
    assert s[..|s|] == s;
    DecimalValue(n);
    assert ("-" + s)[1..] == s;
  }

  /** The order input's `onChange`: `parseInt(value) || 1`, so NaN and 0 become 1. */
  function OrderFromInput(value: string): (order: int)
    ensures order != 0
    ensures ParseInt(value).None? ==> order == 1
    ensures ParseInt(value).Some? && ParseInt(value).value != 0 ==> order == ParseInt(value).value
  {
    match ParseInt(value)
    case None => 1
    case Some(v) => if v == 0 then 1 else v
  }

  /** Typing a number other than 0 sets the order to that number; clearing the
      input or typing 0 sets it to 1. */
  lemma OrderInputReadsNumber(n: nat)
    ensures n != 0 ==> OrderFromInput(Decimal(n)) == n && OrderFromInput("-" + Decimal(n)) == -(n as int)
    ensures OrderFromInput(Decimal(0)) == 1
    ensures OrderFromInput("") == 1
  {
    ParseIntReadsDecimal(n);
    ParseIntReadsDecimal(0);
  }

  // ------------------------------------------------------------ the form

  /** The form's inputs; an unset description or category is ''. */
  datatype FaaTaskFields = FaaTaskFields(
    title: string,
    description: string,
    priority: Priority,
    categoryId: string,
    orderInCategory: int)

  /** `selectedCategoryId || ''`. */
  function SelectedOrEmpty(selected: Option<Id>): (r: string)
    ensures r == "" <==> selected.None? || selected == Some("")
  {
    EmptyIfNull(selected)
  }

  /** The initial state of the inputs: priority High, order 1, and the
      selected category. */
  function InitialFields(selected: Option<Id>): (f: FaaTaskFields)
    ensures f.priority == High && f.orderInCategory == 1
    ensures f.title == "" && f.description == ""
    ensures f.categoryId == SelectedOrEmpty(selected)
  {
    FaaTaskFields("", "", High, SelectedOrEmpty(selected), 1)
  }

  /** The inputs the effect sets from the task being edited. */
  function PrefilledFields(t: FaaTask): (f: FaaTaskFields)
    ensures f.title == t.title && f.priority == t.priority
    ensures f.categoryId == t.faaCategoryId && f.orderInCategory == t.orderInCategory
    ensures f.description == "" <==> t.description.None? || t.description == Some("")
    ensures t.description.Some? ==> f.description == t.description.value
  {
    FaaTaskFields(t.title, EmptyIfNull(t.description), t.priority, t.faaCategoryId, t.orderInCategory)
  }

  function HasCategoryId(id: Id): FaaCategoryWithTasks -> bool
  {
    (c: FaaCategoryWithTasks) => c.category.id == id
  }

  /** The order a new task in the selected category starts with: one more
      than the number of tasks of the first category with that id, if any. */
  function NextOrder(categories: seq<FaaCategoryWithTasks>, selected: Id): (r: Option<int>)
    ensures r.None? <==> forall c :: c in categories ==> c.category.id != selected
    ensures r.Some? ==> exists k :: (0 <= k < |categories| && categories[k].category.id == selected
      && r.value == |categories[k].faaTasks| + 1
      && forall i :: 0 <= i < k ==> categories[i].category.id != selected)
  {
    match Find(categories, HasCategoryId(selected))
    case None => None
    case Some(c) => Some(|c.faaTasks| + 1)
  }

  /** The payload built from the inputs: the description '' becomes null,
      everything else is sent as it stands. */
  function SubmittedPayload(f: FaaTaskFields): (p: FaaTaskPayload)
    ensures p.faaCategoryId == f.categoryId && p.title == f.title
    ensures p.priority == f.priority && p.orderInCategory == f.orderInCategory
    ensures p.description.None? <==> f.description == ""
    ensures p.description.Some? ==> p.description.value == f.description
  {
    FaaTaskPayload(f.categoryId, f.title, NullIfEmpty(f.description), f.priority, f.orderInCategory)
  }

  /** Opening a task and submitting it unchanged sends back its own values,
      with an empty description as null. */
  lemma UnchangedEditKeepsTask(t: FaaTask)
    ensures var p := SubmittedPayload(PrefilledFields(t));
      && p.faaCategoryId == t.faaCategoryId && p.title == t.title && p.priority == t.priority
      && p.orderInCategory == t.orderInCategory
      && p.description == (if t.description == Some("") then None else t.description)
  {
    NullIfEmptyAfterEmptyIfNull(t.description);
  }

  /** The form's state. */
  class FaaTaskFormState {
    const task: Option<FaaTask>
    const categories: seq<FaaCategoryWithTasks>
    const selectedCategoryId: Option<Id>
    var title: string
    var description: string
    var priority: Priority
    var categoryId: string
    var orderInCategory: int

    function Fields(): FaaTaskFields
      reads this
    {
      FaaTaskFields(title, description, priority, categoryId, orderInCategory)
    }

    constructor (task: Option<FaaTask>, categories: seq<FaaCategoryWithTasks>, selectedCategoryId: Option<Id>)
      ensures this.task == task && this.categories == categories && this.selectedCategoryId == selectedCategoryId
      ensures Fields() == InitialFields(selectedCategoryId)
    {
      this.task := task;
      this.categories := categories;
      this.selectedCategoryId := selectedCategoryId;
      title := "";
      description := "";
      priority := High;
      categoryId := EmptyIfNull(selectedCategoryId);
      orderInCategory := 1;
    }

    /** The effect: an edited task fills every input; otherwise a selected
        category that exists sets the order to its next number, and nothing
        else changes. */
    method Effect()
      modifies this
      ensures task.Some? ==> Fields() == PrefilledFields(task.value)
      ensures task.None? && selectedCategoryId.Some? && selectedCategoryId.value != ""
              && NextOrder(categories, selectedCategoryId.value).Some? ==>
        Fields() == old(Fields()).(orderInCategory := NextOrder(categories, selectedCategoryId.value).value)
      ensures task.None? && (selectedCategoryId.None? || selectedCategoryId == Some("")
                             || NextOrder(categories, selectedCategoryId.value).None?) ==>
        Fields() == old(Fields())
    {
      if task.Some? {
        var t := task.value;
        title := t.title;
        description := EmptyIfNull(t.description);
        priority := t.priority;
        categoryId := t.faaCategoryId;
        orderInCategory := t.orderInCategory;
      } else if selectedCategoryId.Some? && selectedCategoryId.value != "" {
        var category := Find(categories, HasCategoryId(selectedCategoryId.value));
        if category.Some? {
          orderInCategory := |category.value.faaTasks| + 1;
        }
      }
    }

    /** The order input's `onChange`. */
    method OnOrderInput(value: string)
      modifies this
      ensures Fields() == old(Fields()).(orderInCategory := OrderFromInput(value))
    {
      orderInCategory := OrderFromInput(value);
    }

    /** `handleSubmit`: `onSubmit` with the payload, then `onClose`. */
    method HandleSubmit() returns (calls: seq<FormCall<FaaTaskPayload>>)
      ensures calls == [OnSubmit(SubmittedPayload(Fields())), OnClose]
    {
      var taskData := SubmittedPayload(Fields());
      calls := [OnSubmit(taskData), OnClose];
    }
  }

  /** A new task opened on a category with n tasks starts at order n + 1. */
  lemma NewTaskFollowsLastOfCategory(categories: seq<FaaCategoryWithTasks>, k: nat)
    requires k < |categories|
    requires forall i :: 0 <= i < k ==> categories[i].category.id != categories[k].category.id
    ensures NextOrder(categories, categories[k].category.id) == Some(|categories[k].faaTasks| + 1)
  {
    var id := categories[k].category.id;
    var r := NextOrder(categories, id);
    var j :| 0 <= j < |categories| && categories[j].category.id == id
      && r.value == |categories[j].faaTasks| + 1
      && forall i :: 0 <= i < j ==> categories[i].category.id != id;
    assert j == k;
  }
}
