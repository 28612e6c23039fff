/**
 * The FAA work page (src/components/WorkPage.tsx): the category lock, the
 * split into active and completed checklists, and the progress overview.
 */
module WorkPage {
  import opened Lists
  import opened Rows
  import S = FaaCategorySection

  function CategoryKey(c: FaaCategoryWithTasks): Id
  {
    c.category.id
  }

  predicate IsIncompleteCategory(c: FaaCategoryWithTasks)
  {
    !S.AllTasksCompleted(c)
  }

  predicate IsCompletedCategory(c: FaaCategoryWithTasks)
  {
    S.AllTasksCompleted(c)
  }

  /** `incompleteCategories`. */
  function IncompleteCategories(cats: seq<FaaCategoryWithTasks>): seq<FaaCategoryWithTasks>
  {
    Filter(cats, IsIncompleteCategory)
  }

  /** `completedCategories`. */
  function CompletedCategories(cats: seq<FaaCategoryWithTasks>): seq<FaaCategoryWithTasks>
  {
    Filter(cats, IsCompletedCategory)
  }

  /** The two lists partition the categories, each in the original order. */
  lemma CategoriesPartition(cats: seq<FaaCategoryWithTasks>)
    ensures multiset(IncompleteCategories(cats)) + multiset(CompletedCategories(cats)) == multiset(cats)
    ensures |IncompleteCategories(cats)| + |CompletedCategories(cats)| == |cats|
    ensures IsSubsequence(IncompleteCategories(cats), cats) && IsSubsequence(CompletedCategories(cats), cats)
    ensures forall c :: c in cats ==> (c in IncompleteCategories(cats) <==> c !in CompletedCategories(cats))
  {
    FilterPartition(cats, IsIncompleteCategory, IsCompletedCategory);
  }

  /** The lock rule: some category before index `k` is not fully complete. */
  predicate CategoryLocked(cats: seq<FaaCategoryWithTasks>, k: int)
  {
    exists i :: 0 <= i < k && i < |cats| && IsIncompleteCategory(cats[i])
  }

  /** `getCategoryLockStatus(categoryIndex)`; the index may be the -1 of a
      failed `findIndex`. */
  method GetCategoryLockStatus(cats: seq<FaaCategoryWithTasks>, categoryIndex: int) returns (locked: bool)
    requires categoryIndex <= |cats|
    ensures locked <==> exists i :: 0 <= i < categoryIndex && !S.AllTasksCompleted(cats[i])
    ensures locked == CategoryLocked(cats, categoryIndex)
    ensures categoryIndex <= 0 ==> !locked
  {
    if categoryIndex == 0 {
      return false;
    }
    var i := 0;
    while i < categoryIndex
      invariant 0 <= i <= |cats| && (categoryIndex >= 0 ==> i <= categoryIndex)
      invariant forall j :: 0 <= j < i ==> S.AllTasksCompleted(cats[j])
    {
      var isComplete := S.AllTasksCompleted(cats[i]);
      if !isComplete {
        return true;
      }
      i := i + 1;
    }
    return false;
  }

  /** Among the categories not yet complete only the first is unlocked. */
  lemma FirstIncompleteIsOnlyOpen(cats: seq<FaaCategoryWithTasks>, k: nat)
    requires k < |cats|
    requires IsIncompleteCategory(cats[k])
    ensures !CategoryLocked(cats, k) <==> k == FindIndex(cats, IsIncompleteCategory)
  {
    var f := FindIndex(cats, IsIncompleteCategory);
    assert 0 <= f <= k;
    if f < k {
      assert CategoryLocked(cats, k);
    }
  }

  /** `faaCategories.findIndex(cat => cat.id === category.id)`. */
  function OriginalIndex(cats: seq<FaaCategoryWithTasks>, id: Id): (k: int)
    ensures -1 <= k < |cats|
    ensures k == -1 <==> forall i :: 0 <= i < |cats| ==> cats[i].category.id != id
    ensures k >= 0 ==> cats[k].category.id == id && forall i :: 0 <= i < k ==> cats[i].category.id != id
  {
    FindIndex(cats, (c: FaaCategoryWithTasks) => c.category.id == id)
  }

  /** With distinct category ids, the first active checklist is unlocked and
      every later one is locked. */
  lemma ActiveLockPattern(cats: seq<FaaCategoryWithTasks>, i: nat)
    requires UniqueKeys(cats, CategoryKey)
    requires i < |IncompleteCategories(cats)|
    ensures OriginalIndex(cats, IncompleteCategories(cats)[i].category.id) >= 0
    ensures CategoryLocked(cats, OriginalIndex(cats, IncompleteCategories(cats)[i].category.id)) <==> i > 0
  {
    var inc := IncompleteCategories(cats);
    var c := inc[i];
    assert c in inc;
    assert c in cats && IsIncompleteCategory(c);
    var k := OriginalIndex(cats, c.category.id);
    var m :| 0 <= m < |cats| && cats[m] == c;
    assert k >= 0 && k <= m;
    assert cats[k] == c;
    var f := FindIndex(cats, IsIncompleteCategory);
    assert f >= 0 && f <= k;
    FilterHead(cats, IsIncompleteCategory);
    assert inc[0] == cats[f];
    FirstIncompleteIsOnlyOpen(cats, k);
    if i > 0 {
      SubsequenceKeepsUniqueKeys(inc, cats, CategoryKey);
      assert CategoryKey(inc[0]) != CategoryKey(inc[i]);
      assert f != k;
    }
  }

  /** The properties a category section receives. */
  datatype SectionProps = SectionProps(category: FaaCategoryWithTasks, isLocked: bool, initialExpanded: bool)

  /** The "Active Checklists" column: every incomplete category, expanded,
      locked by the lock of its original index. */
  method ActiveSections(cats: seq<FaaCategoryWithTasks>) returns (sections: seq<SectionProps>)
    ensures |sections| == |IncompleteCategories(cats)|
    ensures forall i :: 0 <= i < |sections| ==>
      sections[i].category == IncompleteCategories(cats)[i] && sections[i].initialExpanded
      && sections[i].isLocked == CategoryLocked(cats, OriginalIndex(cats, sections[i].category.category.id))
  {
    var incompleteCategories := IncompleteCategories(cats);
    sections := [];
    for index := 0 to |incompleteCategories|
      invariant |sections| == index
      invariant forall i :: 0 <= i < index ==>
        sections[i].category == incompleteCategories[i] && sections[i].initialExpanded
        && sections[i].isLocked == CategoryLocked(cats, OriginalIndex(cats, sections[i].category.category.id))
    {
      var category := incompleteCategories[index];
      var originalIndex := OriginalIndex(cats, category.category.id);
      var isLocked := GetCategoryLockStatus(cats, originalIndex);
      sections := sections + [SectionProps(category, isLocked, true)];
    }
  }

  /** The "Completed Checklists" column: every complete category, collapsed
      and never locked. */
  function CompletedSections(cats: seq<FaaCategoryWithTasks>): (sections: seq<SectionProps>)
    ensures |sections| == |CompletedCategories(cats)|
    ensures forall i :: 0 <= i < |sections| ==>
      sections[i].category == CompletedCategories(cats)[i] && !sections[i].isLocked && !sections[i].initialExpanded
      && S.AllTasksCompleted(sections[i].category)
  {
    var done := CompletedCategories(cats);
    seq(|done|, i requires 0 <= i < |done| => SectionProps(done[i], false, false))
  }

  /** One card of the progress overview. */
  datatype OverviewCard = OverviewCard(category: FaaCategory, completedCount: nat, totalCount: nat, isComplete: bool, isLocked: bool)

  /** The progress overview: one card per category, in order, with its counts,
      whether it is complete and its lock. */
  method Overview(cats: seq<FaaCategoryWithTasks>) returns (cards: seq<OverviewCard>)
    ensures |cards| == |cats|
    ensures forall i :: 0 <= i < |cards| ==>
      cards[i].category == cats[i].category
      && cards[i].completedCount == S.CompletedCount(cats[i])
      && cards[i].completedCount <= cards[i].totalCount == |cats[i].faaTasks|
      && (cards[i].isComplete <==> cards[i].completedCount == cards[i].totalCount)
      && (cards[i].isComplete <==> S.AllTasksCompleted(cats[i]))
      && cards[i].isLocked == CategoryLocked(cats, i)
    ensures |cards| > 0 ==> !cards[0].isLocked
  {
    cards := [];
    for index := 0 to |cats|
      invariant |cards| == index
      invariant forall i :: 0 <= i < index ==>
        cards[i].category == cats[i].category
        && cards[i].completedCount == S.CompletedCount(cats[i])
        && cards[i].completedCount <= cards[i].totalCount == |cats[i].faaTasks|
        && (cards[i].isComplete <==> cards[i].completedCount == cards[i].totalCount)
        && (cards[i].isComplete <==> S.AllTasksCompleted(cats[i]))
        && cards[i].isLocked == CategoryLocked(cats, i)
    {
      var category := cats[index];
      var completedCount := S.CompletedCount(category);
      var totalCount := S.TotalCount(category);
      var isLocked := GetCategoryLockStatus(cats, index);
      cards := cards + [OverviewCard(category.category, completedCount, totalCount, completedCount == totalCount, isLocked)];
    }
  }
}
