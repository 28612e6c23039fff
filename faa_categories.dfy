/**
 * The FAA checklist hook (src/hooks/useFAACategories.ts): loading the
 * categories and merging them with the user's progress, the progress upsert
 * of a toggle, the admin-only task mutations, and the flight status.
 *
 * The database is not called: every call's reply is a parameter of the
 * method that makes it, and each mutation returns the write it sends.
 */
module FaaCategories {
  import opened Wrappers
  import opened Lists
  import opened Rows
  import S = FaaCategorySection

  /** A category as the categories query returns it, with its task rows. */
  datatype FetchedCategory = FetchedCategory(category: FaaCategory, faaTasks: seq<FaaTask>)

  /** The two state variables of the hook. */
  datatype HookState = HookState(faaCategories: seq<FaaCategoryWithTasks>, loading: bool)

  // ---------------------------------------------------------------- merge

  function TaskOrderKey(t: FaaTask): SortKey
  {
    SortKey(t.orderInCategory, 0)
  }

  /** `sort((a, b) => a.order_in_category - b.order_in_category)`, a stable sort. */
  function SortTasks(tasks: seq<FaaTask>): (r: seq<FaaTask>)
    ensures multiset(r) == multiset(tasks)
    ensures forall i, j :: 0 <= i < j < |r| ==> r[i].orderInCategory <= r[j].orderInCategory
  {
    var r := StableSort(tasks, TaskOrderKey);
    assert forall i, j :: 0 <= i < j < |r| ==> KeyLe(TaskOrderKey(r[i]), TaskOrderKey(r[j]));
    r
  }

  /** Tasks with the same order keep their fetched order. */
  lemma SortTasksIsStable(tasks: seq<FaaTask>, order: int)
    ensures WithKey(SortTasks(tasks), TaskOrderKey, SortKey(order, 0)) == WithKey(tasks, TaskOrderKey, SortKey(order, 0))
  {
    StableSortIsStable(tasks, TaskOrderKey, SortKey(order, 0));
  }

  /** `progressData?.find(p => p.faa_task_id === task.id)`. */
  function FindProgress(progress: Option<seq<UserFaaTask>>, taskId: Id): (r: Option<UserFaaTask>)
    ensures progress.None? ==> r.None?
    ensures progress.Some? ==>
      (r.None? <==> forall i :: 0 <= i < |progress.value| ==> progress.value[i].faaTaskId != taskId)
    ensures r.Some? ==> progress.Some? && r.value.faaTaskId == taskId
    ensures r.Some? ==> exists k :: 0 <= k < |progress.value| && progress.value[k] == r.value
                         && forall i :: 0 <= i < k ==> progress.value[i].faaTaskId != taskId
  {
    match progress
    case None => None
    case Some(rows) => Find(rows, (p: UserFaaTask) => p.faaTaskId == taskId)
  }

  /** One fetched category, its tasks sorted and each given its progress. */
  function MergeCategory(c: FetchedCategory, progress: Option<seq<UserFaaTask>>): (r: FaaCategoryWithTasks)
    ensures r.category == c.category
    ensures |r.faaTasks| == |c.faaTasks|
    ensures forall j :: 0 <= j < |r.faaTasks| ==>
      r.faaTasks[j].task == SortTasks(c.faaTasks)[j]
      && r.faaTasks[j].userProgress == FindProgress(progress, r.faaTasks[j].task.id)
    ensures forall i, j :: 0 <= i < j < |r.faaTasks| ==> r.faaTasks[i].task.orderInCategory <= r.faaTasks[j].task.orderInCategory
  {
    var sorted := SortTasks(c.faaTasks);
    assert |multiset(sorted)| == |multiset(c.faaTasks)|;
    FaaCategoryWithTasks(c.category, seq(|sorted|, j requires 0 <= j < |sorted| =>
      FaaTaskWithProgress(sorted[j], FindProgress(progress, sorted[j].id))))
  }

  /** `categoriesWithProgress`: the fetched categories in their fetched order. */
  function MergeCategories(cats: seq<FetchedCategory>, progress: Option<seq<UserFaaTask>>): (r: seq<FaaCategoryWithTasks>)
    ensures |r| == |cats|
    ensures forall i :: 0 <= i < |r| ==> r[i] == MergeCategory(cats[i], progress)
  {
    seq(|cats|, i requires 0 <= i < |cats| => MergeCategory(cats[i], progress))
  }

  /** When the progress query fails no task has progress, so none is completed. */
  lemma {:induction false} NoProgressMeansNothingCompleted(cats: seq<FetchedCategory>, i: nat)
    requires i < |cats|
    ensures !S.IsComplete(MergeCategories(cats, None)[i]) <==> |cats[i].faaTasks| > 0
  {
    var m := MergeCategories(cats, None)[i];
    assert forall j :: 0 <= j < |m.faaTasks| ==> !S.IsTaskCompleted(m.faaTasks[j]);
    if |m.faaTasks| > 0 {
      assert !S.IsTaskCompleted(m.faaTasks[0]);
    }
  }

  /** The state after `fetchFAACategories`, given the replies of its two queries.
      Without a user nothing happens; a categories error only ends loading; a
      reply without error and without data makes `.map` throw, leaving the
      list as it was and loading still on. */
  function FetchOutcome(s: HookState, user: Option<User>, categories: Reply<seq<FetchedCategory>>,
                        progress: Reply<seq<UserFaaTask>>): (r: HookState)
    ensures user.None? ==> r == s
    ensures user.Some? && categories.error.Some? ==> r == s.(loading := false)
    ensures user.Some? && categories.error.None? && categories.data.None? ==> r == s.(loading := true)
    ensures user.Some? && categories.error.None? && categories.data.Some? ==>
      !r.loading && |r.faaCategories| == |categories.data.value|
      && forall i :: 0 <= i < |r.faaCategories| ==>
        r.faaCategories[i] == MergeCategory(categories.data.value[i], progress.data)
  {
    if user.None? then s
    else if categories.error.Some? then s.(loading := false)
    else if categories.data.None? then s.(loading := true)
    else HookState(MergeCategories(categories.data.value, progress.data), false)
  }

  // ---------------------------------------------------------------- progress upsert

  /** `completed ? new Date().toISOString() : null`, with the clock as `now`. */
  function CompletedAt(completed: bool, now: Timestamp): (r: Option<Timestamp>)
    ensures r.Some? <==> completed
    ensures r.Some? ==> r.value == now
  {
    if completed then Some(now) else None
  }

  /** `maybeSingle()` over the rows the lookup returned: the row when there is
      exactly one, and null when there is none, when there are several (the
      call then reports an error the code ignores) or when the query failed. */
  function ExistingProgress(lookup: Option<seq<UserFaaTask>>): (r: Option<UserFaaTask>)
    ensures r.Some? <==> lookup.Some? && |lookup.value| == 1
    ensures r.Some? ==> r.value == lookup.value[0]
  {
    if lookup.Some? && |lookup.value| == 1 then Some(lookup.value[0]) else None
  }

  /** The write a toggle sends to `user_faa_tasks`. */
  datatype ProgressWrite =
    | UpdateProgress(recordId: Id, completed: bool, completedAt: Option<Timestamp>)
    | InsertProgress(userId: Id, faaTaskId: Id, completed: bool, completedAt: Option<Timestamp>)

  /** The upsert: update the existing record in place, or insert a new one. */
  function ProgressWriteFor(userId: Id, faaTaskId: Id, completed: bool, now: Timestamp,
                            existing: Option<UserFaaTask>): (w: ProgressWrite)
    ensures w.completed == completed
    ensures w.completedAt.Some? <==> completed
    ensures w.UpdateProgress? <==> existing.Some?
    ensures w.UpdateProgress? ==> w.recordId == existing.value.id
    ensures w.InsertProgress? ==> w.userId == userId && w.faaTaskId == faaTaskId
  {
    match existing
    case Some(row) => UpdateProgress(row.id, completed, CompletedAt(completed, now))
    case None => InsertProgress(userId, faaTaskId, completed, CompletedAt(completed, now))
  }

  /** Completing twice stamps twice: the progress write is not idempotent. */
  lemma RestampsOnRepeatedComplete(userId: Id, faaTaskId: Id, now1: Timestamp, now2: Timestamp,
                                   e1: Option<UserFaaTask>, e2: Option<UserFaaTask>)
    requires now1 != now2
    ensures ProgressWriteFor(userId, faaTaskId, true, now1, e1).completedAt
         != ProgressWriteFor(userId, faaTaskId, true, now2, e2).completedAt
  {
    var a := ProgressWriteFor(userId, faaTaskId, true, now1, e1).completedAt;
    var b := ProgressWriteFor(userId, faaTaskId, true, now2, e2).completedAt;
    assert a == Some(now1) && b == Some(now2);
  }

  /** Whether a row is the progress of this user on this task. */
  function IsProgressOf(userId: Id, faaTaskId: Id): UserFaaTask -> bool
  {
    (p: UserFaaTask) => p.userId == userId && p.faaTaskId == faaTaskId
  }

  /** The rows the lookup selects from the table. */
  function ProgressOf(table: seq<UserFaaTask>, userId: Id, faaTaskId: Id): seq<UserFaaTask>
  {
    Filter(table, IsProgressOf(userId, faaTaskId))
  }

  function UpdateRow(p: UserFaaTask, recordId: Id, completed: bool, completedAt: Option<Timestamp>): UserFaaTask
  {
    if p.id == recordId then p.(completed := completed, completedAt := completedAt) else p
  }

  /** `update({completed, completed_at}).eq('id', recordId)` on the table. */
  function UpdateRows(table: seq<UserFaaTask>, recordId: Id, completed: bool, completedAt: Option<Timestamp>): (r: seq<UserFaaTask>)
    ensures |r| == |table|
    ensures forall i :: 0 <= i < |r| ==> r[i] == UpdateRow(table[i], recordId, completed, completedAt)
  {
    if table == [] then []
    else
      assert forall i :: 1 <= i < |table| ==> table[i] == table[1..][i - 1];
      [UpdateRow(table[0], recordId, completed, completedAt)] + UpdateRows(table[1..], recordId, completed, completedAt)
  }

  /** The table after a write; an insert gets the id and creation time the
      database assigns. */
  function ApplyProgressWrite(table: seq<UserFaaTask>, w: ProgressWrite, newId: Id, createdAt: Timestamp): seq<UserFaaTask>
  {
    match w
    case UpdateProgress(recordId, completed, completedAt) => UpdateRows(table, recordId, completed, completedAt)
    case InsertProgress(userId, faaTaskId, completed, completedAt) =>
      table + [UserFaaTask(newId, userId, faaTaskId, completed, completedAt, createdAt)]
  }

  /** An update never moves a row into or out of anybody's progress. */
  lemma {:induction false} UpdateCommutesWithLookup(table: seq<UserFaaTask>, userId: Id, faaTaskId: Id,
                                                    recordId: Id, completed: bool, completedAt: Option<Timestamp>)
    ensures ProgressOf(UpdateRows(table, recordId, completed, completedAt), userId, faaTaskId)
         == UpdateRows(ProgressOf(table, userId, faaTaskId), recordId, completed, completedAt)
  {
    if table != [] {
      var u := UpdateRows(table, recordId, completed, completedAt);
      assert u[1..] == UpdateRows(table[1..], recordId, completed, completedAt);
      UpdateCommutesWithLookup(table[1..], userId, faaTaskId, recordId, completed, completedAt);
    }
  }

  /** The upsert keeps one record per user and task: when the table held at
      most one and the lookup saw the table, afterwards it holds exactly one,
      and that one carries the new state. */
  lemma UpsertKeepsOneRecord(table: seq<UserFaaTask>, userId: Id, faaTaskId: Id, completed: bool,
                             now: Timestamp, newId: Id, createdAt: Timestamp)
    requires |ProgressOf(table, userId, faaTaskId)| <= 1
    ensures var lookup := Some(ProgressOf(table, userId, faaTaskId));
            var w := ProgressWriteFor(userId, faaTaskId, completed, now, ExistingProgress(lookup));
            var after := ProgressOf(ApplyProgressWrite(table, w, newId, createdAt), userId, faaTaskId);
            |after| == 1 && after[0].completed == completed && after[0].completedAt == CompletedAt(completed, now)
  {
    var found := ProgressOf(table, userId, faaTaskId);
    var w := ProgressWriteFor(userId, faaTaskId, completed, now, ExistingProgress(Some(found)));
    if |found| == 1 {
      UpdateCommutesWithLookup(table, userId, faaTaskId, found[0].id, completed, CompletedAt(completed, now));
    } else {
      var row := UserFaaTask(newId, userId, faaTaskId, completed, CompletedAt(completed, now), createdAt);
      FilterAppend(table, [row], IsProgressOf(userId, faaTaskId));
      assert Filter([row], IsProgressOf(userId, faaTaskId)) == [row];
    }
  }

  // ---------------------------------------------------------------- admin guard

  /** `user && profile?.role === 'admin'`. */
  predicate IsAdmin(user: Option<User>, profile: Option<Profile>)
  {
    user.Some? && profile.Some? && profile.value.role == "admin"
  }

  /** The writes the admin mutations send to `faa_tasks`. */
  datatype FaaTaskWrite =
    | InsertFaaTask(payload: FaaTaskPayload)
    | UpdateFaaTask(id: Id, updates: FaaTaskPayload)
    | DeleteFaaTask(id: Id)

  const NotAuthenticated: string := "User not authenticated"
  const AdminRequired: string := "Admin access required"

  /** The hook's state, with the signed-in user and profile it reads. */
  class FaaCategoriesHook {
    var faaCategories: seq<FaaCategoryWithTasks>
    var loading: bool
    const user: Option<User>
    const profile: Option<Profile>

    function State(): HookState
      reads this
    {
      HookState(faaCategories, loading)
    }

    constructor (user: Option<User>, profile: Option<Profile>)
      ensures faaCategories == [] && loading
      ensures this.user == user && this.profile == profile
    {
      faaCategories := [];
      loading := true;
      this.user := user;
      this.profile := profile;
    }

    /** `fetchFAACategories`, given the replies of the categories query and of
        the progress query. */
    method FetchFaaCategories(categories: Reply<seq<FetchedCategory>>, progress: Reply<seq<UserFaaTask>>)
      modifies this
      ensures State() == FetchOutcome(old(State()), user, categories, progress)
    {
      if user.None? {
        return;
      }
      loading := true;
      if categories.error.Some? {
        loading := false;
        return;
      }
      if categories.data.None? {
        return;
      }
      faaCategories := MergeCategories(categories.data.value, progress.data);
      loading := false;
    }

    /** `toggleFAATaskComplete(faaTaskId, completed)`, with the clock as `now`,
        the rows the lookup returned, the write's error and the replies of the
        refetch. Returns the write sent and the error returned. */
    method ToggleFaaTaskComplete(faaTaskId: Id, completed: bool, now: Timestamp,
                                 lookup: Option<seq<UserFaaTask>>, writeError: Option<string>,
                                 refetchCategories: Reply<seq<FetchedCategory>>,
                                 refetchProgress: Reply<seq<UserFaaTask>>)
      returns (write: Option<ProgressWrite>, error: Option<string>)
      modifies this
      ensures user.None? ==> write.None? && error == Some(NotAuthenticated) && State() == old(State())
      ensures user.Some? ==>
        write == Some(ProgressWriteFor(user.value.id, faaTaskId, completed, now, ExistingProgress(lookup)))
        && error == writeError
      ensures user.Some? && writeError.Some? ==> State() == old(State())
      ensures user.Some? && writeError.None? ==>
        State() == FetchOutcome(old(State()), user, refetchCategories, refetchProgress)
    {
      if user.None? {
        return None, Some(NotAuthenticated);
      }
      var completedAt := CompletedAt(completed, now);
      var existingProgress := ExistingProgress(lookup);
      if existingProgress.Some? {
        write := Some(UpdateProgress(existingProgress.value.id, completed, completedAt));
      } else {
        write := Some(InsertProgress(user.value.id, faaTaskId, completed, completedAt));
      }
      if writeError.None? {
        FetchFaaCategories(refetchCategories, refetchProgress);
      }
      error := writeError;
    }

    /** `createFAATask(task)`: only an admin writes; the data and error of the
        insert are returned and a successful insert is followed by a refetch. */
    method CreateFaaTask(task: FaaTaskPayload, reply: Reply<FaaTask>,
                         refetchCategories: Reply<seq<FetchedCategory>>,
                         refetchProgress: Reply<seq<UserFaaTask>>)
      returns (write: Option<FaaTaskWrite>, data: Option<FaaTask>, error: Option<string>)
      modifies this
      ensures !IsAdmin(user, profile) ==>
        write.None? && data.None? && error == Some(AdminRequired) && State() == old(State())
      ensures IsAdmin(user, profile) ==>
        write == Some(InsertFaaTask(task)) && data == reply.data && error == reply.error
      ensures IsAdmin(user, profile) && reply.error.Some? ==> State() == old(State())
      ensures IsAdmin(user, profile) && reply.error.None? ==>
        State() == FetchOutcome(old(State()), user, refetchCategories, refetchProgress)
    {
      if !IsAdmin(user, profile) {
        return None, None, Some(AdminRequired);
      }
      write := Some(InsertFaaTask(task));
      if reply.error.None? {
        FetchFaaCategories(refetchCategories, refetchProgress);
      }
      data, error := reply.data, reply.error;
    }

    /** `updateFAATask(id, updates)`, guarded and refetched like the create. */
    method UpdateFaaTaskRow(id: Id, updates: FaaTaskPayload, reply: Reply<FaaTask>,
                            refetchCategories: Reply<seq<FetchedCategory>>,
                            refetchProgress: Reply<seq<UserFaaTask>>)
      returns (write: Option<FaaTaskWrite>, data: Option<FaaTask>, error: Option<string>)
      modifies this
      ensures !IsAdmin(user, profile) ==>
        write.None? && data.None? && error == Some(AdminRequired) && State() == old(State())
      ensures IsAdmin(user, profile) ==>
        write == Some(UpdateFaaTask(id, updates)) && data == reply.data && error == reply.error
      ensures IsAdmin(user, profile) && reply.error.Some? ==> State() == old(State())
      ensures IsAdmin(user, profile) && reply.error.None? ==>
        State() == FetchOutcome(old(State()), user, refetchCategories, refetchProgress)
    {
      if !IsAdmin(user, profile) {
        return None, None, Some(AdminRequired);
      }
      write := Some(UpdateFaaTask(id, updates));
      if reply.error.None? {
        FetchFaaCategories(refetchCategories, refetchProgress);
      }
      data, error := reply.data, reply.error;
    }

    /** `deleteFAATask(id)`, guarded and refetched like the create. */
    method DeleteFaaTaskRow(id: Id, deleteError: Option<string>,
                            refetchCategories: Reply<seq<FetchedCategory>>,
                            refetchProgress: Reply<seq<UserFaaTask>>)
      returns (write: Option<FaaTaskWrite>, error: Option<string>)
      modifies this
      ensures !IsAdmin(user, profile) ==> write.None? && error == Some(AdminRequired) && State() == old(State())
      ensures IsAdmin(user, profile) ==> write == Some(DeleteFaaTask(id)) && error == deleteError
      ensures IsAdmin(user, profile) && deleteError.Some? ==> State() == old(State())
      ensures IsAdmin(user, profile) && deleteError.None? ==>
        State() == FetchOutcome(old(State()), user, refetchCategories, refetchProgress)
    {
      if !IsAdmin(user, profile) {
        return None, Some(AdminRequired);
      }
      write := Some(DeleteFaaTask(id));
      if deleteError.None? {
        FetchFaaCategories(refetchCategories, refetchProgress);
      }
      error := deleteError;
    }
  }

  // ---------------------------------------------------------------- flight status

  datatype FlightStatus = PreFlight | Taxiing | Airborne | Landed

  /** The stages in the order a flight passes them. */
  function Stage(s: FlightStatus): nat
  {
    match s
    case PreFlight => 0
    case Taxiing => 1
    case Airborne => 2
    case Landed => 3
  }

  /** The category whose completion reaches each stage past Pre-Flight. */
  function StageCategoryName(s: FlightStatus): string
  {
    match s
    case PreFlight => ""
    case Taxiing => "Taxi Approval"
    case Airborne => "Takeoff Approval"
    case Landed => "Landing Approval"
  }

  /** `faaCategories.find(cat => cat.name === name)`. */
  function FindByName(cats: seq<FaaCategoryWithTasks>, name: string): Option<FaaCategoryWithTasks>
  {
    Find(cats, (c: FaaCategoryWithTasks) => c.category.name == name)
  }

  /** `isCategoryComplete`: an absent category is not complete, an empty one is. */
  predicate IsCategoryComplete(c: Option<FaaCategoryWithTasks>)
  {
    c.Some? && S.AllTasksCompleted(c.value)
  }

  /** `getFlightStatus()`. */
  function GetFlightStatus(cats: seq<FaaCategoryWithTasks>): FlightStatus
  {
    if IsCategoryComplete(FindByName(cats, "Landing Approval")) then Landed
    else if IsCategoryComplete(FindByName(cats, "Takeoff Approval")) then Airborne
    else if IsCategoryComplete(FindByName(cats, "Taxi Approval")) then Taxiing
    else PreFlight
  }

  /** A stage is reached when the first category bearing its name exists and
      all its tasks are completed; Pre-Flight is always reached. */
  predicate StageReached(cats: seq<FaaCategoryWithTasks>, s: FlightStatus)
  {
    s == PreFlight ||
    exists i :: 0 <= i < |cats| && cats[i].category.name == StageCategoryName(s)
      && (forall j :: 0 <= j < i ==> cats[j].category.name != StageCategoryName(s))
      && S.AllTasksCompleted(cats[i])
  }

  lemma FindByNameReached(cats: seq<FaaCategoryWithTasks>, s: FlightStatus)
    requires s != PreFlight
    ensures IsCategoryComplete(FindByName(cats, StageCategoryName(s))) <==> StageReached(cats, s)
  {
    var name := StageCategoryName(s);
    var r := FindByName(cats, name);
    if r.Some? {
      var k :| 0 <= k < |cats| && cats[k] == r.value && forall i :: 0 <= i < k ==> cats[i].category.name != name;
      if StageReached(cats, s) {
        var i :| 0 <= i < |cats| && cats[i].category.name == name
          && (forall j :: 0 <= j < i ==> cats[j].category.name != name) && S.AllTasksCompleted(cats[i]);
        assert i == k;
      }
    }
  }

  /** The flight status is the furthest stage reached, whether or not the
      stages before it are reached too. */
  lemma FlightStatusIsFurthestStage(cats: seq<FaaCategoryWithTasks>)
    ensures StageReached(cats, GetFlightStatus(cats))
    ensures forall s :: Stage(s) > Stage(GetFlightStatus(cats)) ==> !StageReached(cats, s)
  {
    FindByNameReached(cats, Taxiing);
    FindByNameReached(cats, Airborne);
    FindByNameReached(cats, Landed);
  }
}
