/**
 The add-task screen: loading the category choices, validating the form,
 building the new task, and saving it by appending to the stored list and
 handing that list to the dashboard.
 */
module AddTask {
  import opened Wrappers
  import opened Tasks

  /** What the category fetch produced: an array, some other value, or a thrown error. */
  datatype Fetched = FetchedArray(items: seq<string>) | FetchedOther | FetchFailed

  /** The alert the screen raises after loading categories, if any. */
  datatype CategoryNotice = NoNotice | NoCategoriesAvailable | FailedToLoad

  datatype CategoryLoad = CategoryLoad(categories: seq<string>, notice: CategoryNotice)

  /** The category list before any fetch completes. */
  const InitialCategories: seq<string> := []

  /**
   `loadCategories`: the list is replaced only when the fetch returns an
   array; otherwise it is kept and the matching alert is raised.
   */
  function LoadCategories(current: seq<string>, fetched: Fetched): (r: CategoryLoad)
    ensures fetched.FetchedArray? ==> r.categories == fetched.items && r.notice == NoNotice
    ensures !fetched.FetchedArray? ==> r.categories == current && r.notice != NoNotice
    ensures r.notice == FailedToLoad <==> fetched == FetchFailed
  {
    match fetched
    case FetchedArray(items) => CategoryLoad(items, NoNotice)
    case FetchedOther => CategoryLoad(current, NoCategoriesAvailable)
    case FetchFailed => CategoryLoad(current, FailedToLoad)
  }

  /** A failed or non-array fetch on mount leaves the screen with no categories. */
  lemma FailedFetchLeavesNoCategories(fetched: Fetched)
    requires !fetched.FetchedArray?
    ensures LoadCategories(InitialCategories, fetched).categories == []
  {
  }

  /**
   The values the category picker can hold: the "Select Category" entry and
   the "No Categories Available" entry both carry `""`; every other entry is a
   fetched category.
   */
  function PickerValues(categories: seq<string>): (r: set<string>)
    ensures "" in r
    ensures forall c :: c in r ==> c == "" || c in categories
    ensures forall c :: c in categories ==> c in r
  {
    {""} + set c | c in categories
  }

  /** `handleAddTask`'s check and record: a task is built only when all three fields are non-empty. */
  function NewTask(id: int, name: string, deadline: string, category: string): (r: Option<Task>)
    ensures r.Some? <==> name != "" && deadline != "" && category != ""
    ensures r.Some? ==> && r.value.id == id && r.value.name == name
                        && r.value.deadline == deadline && r.value.category == category
                        && r.value.status == Pending
  {
    if name != "" && deadline != "" && category != "" then
      Some(Task(id, name, deadline, category, Pending))
    else
      None
  }

  /**
   `saveTask`: read the stored list (empty when absent), append the task,
   write the list back and hand exactly that list to the dashboard when a
   setter was passed. A failed read or write is caught: nothing changes.
   */
  function SaveTask(s: AppState, task: Task, hasParent: bool, readOk: bool, writeOk: bool): (r: Option<AppState>)
    ensures r.None? <==> !(readOk && writeOk)
    ensures r.Some? ==> && r.value.stored.Some?
                        && |r.value.stored.value| == |StoredList(s.stored)| + 1
                        && r.value.stored.value[..|StoredList(s.stored)|] == StoredList(s.stored)
                        && r.value.stored.value[|StoredList(s.stored)|] == task
    ensures r.Some? && s.stored.None? ==> r.value.stored == Some([task])
    ensures r.Some? && hasParent ==> InSync(r.value)
    ensures r.Some? && !hasParent ==> r.value.tasks == s.tasks
  {
    if readOk && writeOk then
      var saved := StoredList(s.stored) + [task];
      Some(AppState(if hasParent then saved else s.tasks, Some(saved)))
    else
      None
  }

  /** Why adding a task did or did not take effect. */
  datatype AddOutcome = Added(task: Task) | ValidationError | SaveError

  datatype AddResult = AddResult(state: AppState, outcome: AddOutcome)

  /**
   Pressing "Add Task": a form with an empty field raises a validation error
   and changes nothing; otherwise the new pending task is saved, and a storage
   failure leaves both the stored entry and the dashboard's list as they were.
   */
  function HandleAddTask(s: AppState, id: int, name: string, deadline: string, category: string,
                         hasParent: bool, readOk: bool, writeOk: bool): (r: AddResult)
    ensures r.outcome == ValidationError <==> name == "" || deadline == "" || category == ""
    ensures r.outcome.ValidationError? || r.outcome.SaveError? ==> r.state == s
    ensures r.outcome.Added? <==> name != "" && deadline != "" && category != "" && readOk && writeOk
    ensures r.outcome.Added? ==> r.outcome.task == Task(id, name, deadline, category, Pending)
    ensures r.outcome.Added? ==> r.state.stored == Some(StoredList(s.stored) + [r.outcome.task])
    ensures r.outcome.Added? && hasParent ==> r.state.tasks == r.state.stored.value
    ensures r.outcome.Added? && !hasParent ==> r.state.tasks == s.tasks
  {
    match NewTask(id, name, deadline, category)
    case None => AddResult(s, ValidationError)
    case Some(task) =>
      match SaveTask(s, task, hasParent, readOk, writeOk)
      case None => AddResult(s, SaveError)
      case Some(saved) =>
        assert saved.stored.value == StoredList(s.stored) + [task];
        AddResult(saved, Added(task))
  }

  /**
   When the dashboard's list matched storage, a successful add leaves it
   extended by exactly the new task at the end, still matching storage.
   */
  lemma AddExtendsSyncedList(s: AppState, id: int, name: string, deadline: string, category: string)
    requires InSync(s)
    requires name != "" && deadline != "" && category != ""
    ensures
      var r := HandleAddTask(s, id, name, deadline, category, true, true, true);
      && r.outcome.Added?
      && r.state.tasks == s.tasks + [Task(id, name, deadline, category, Pending)]
      && InSync(r.state)
  {
  }

  /** Adding a task whose id is not yet stored keeps the stored ids distinct. */
  lemma AddFreshIdKeepsDistinctIds(s: AppState, id: int, name: string, deadline: string, category: string,
                                   hasParent: bool, readOk: bool, writeOk: bool)
    requires DistinctIds(StoredList(s.stored))
    requires forall t :: t in StoredList(s.stored) ==> t.id != id
    ensures DistinctIds(StoredList(HandleAddTask(s, id, name, deadline, category, hasParent, readOk, writeOk).state.stored))
  {
  }

  /** With no categories loaded, every value the picker can hold fails validation. */
  lemma NoCategoriesBlocksAdding(s: AppState, categories: seq<string>, id: int, name: string,
                                 deadline: string, category: string,
                                 hasParent: bool, readOk: bool, writeOk: bool)
    requires |categories| == 0
    requires category in PickerValues(categories)
    ensures HandleAddTask(s, id, name, deadline, category, hasParent, readOk, writeOk).outcome == ValidationError
  {
  }

  /** A task added from a picker value carries one of the fetched categories. */
  lemma AddedCategoryWasFetched(s: AppState, categories: seq<string>, id: int, name: string,
                                deadline: string, category: string,
                                hasParent: bool, readOk: bool, writeOk: bool)
    requires category in PickerValues(categories)
    ensures
      var r := HandleAddTask(s, id, name, deadline, category, hasParent, readOk, writeOk);
      r.outcome.Added? ==> r.outcome.task.category in categories
  {
  }

  /** Adding "Essay" to empty storage stores one pending task. */
  lemma EssayScenario(id: int)
    ensures
      var r := HandleAddTask(AppState([], None), id, "Essay", "2024-05-01", "Academic", true, true, true);
      && r.state.stored == Some([Task(id, "Essay", "2024-05-01", "Academic", Pending)])
      && r.state.tasks == r.state.stored.value
  {
  }
}
