/**
 The dashboard screen's operations on the task list: loading it on mount,
 toggling a task's status, deleting a task, and the press that shows or hides
 a task's details. Toggle and delete update the in-memory list first and then
 write the whole list to storage.
 */
module Dashboard {
  import opened Wrappers
  import opened Tasks

  /** The status a toggle gives a task: `"Completed"` becomes `"Pending"`, anything else `"Completed"`. */
  function Flipped(status: string): (r: string)
    ensures r == Pending || r == Completed
    ensures r == Completed <==> status != Completed
  {
    if status == Completed then Pending else Completed
  }

  /** Flipping twice gives back the status exactly when it was one of the two known values. */
  lemma FlippedTwice(status: string)
    ensures Flipped(Flipped(status)) == status <==> status == Pending || status == Completed
  {
  }

  /**
   `tasks.map(...)` in `toggleTaskStatus`: the list keeps its length and order,
   tasks with another id are untouched, and a task with the id changes only in
   its status, which becomes completed exactly when it was not completed.
   */
  function ToggleStatusById(tasks: seq<Task>, id: int): (r: seq<Task>)
    ensures |r| == |tasks|
    ensures forall i :: 0 <= i < |tasks| && tasks[i].id != id ==> r[i] == tasks[i]
    ensures forall i :: 0 <= i < |tasks| ==> r[i] == tasks[i].(status := r[i].status)
    ensures forall i :: 0 <= i < |tasks| && tasks[i].id == id ==>
      && (r[i].status == Pending || r[i].status == Completed)
      && (r[i].status == Completed <==> tasks[i].status != Completed)
    ensures Ids(r) == Ids(tasks)
  {
    seq(|tasks|, i requires 0 <= i < |tasks| =>
      if tasks[i].id == id then tasks[i].(status := Flipped(tasks[i].status)) else tasks[i])
  }

  /** Every task carrying `id` has one of the two statuses the app itself writes. */
  predicate KnownStatuses(tasks: seq<Task>, id: int)
  {
    forall t :: t in tasks && t.id == id ==> t.status == Pending || t.status == Completed
  }

  /**
   Toggling the same id twice restores the list exactly when every task with
   that id has status `"Pending"` or `"Completed"`.
   */
  lemma ToggleTwiceRestores(tasks: seq<Task>, id: int)
    ensures ToggleStatusById(ToggleStatusById(tasks, id), id) == tasks <==> KnownStatuses(tasks, id)
  {
  }

  /**
   A task with the id whose status is neither `"Pending"` nor `"Completed"`
   comes back from two toggles as `"Pending"`, not as it was.
   */
  lemma ToggleTwiceLosesUnknownStatus(tasks: seq<Task>, id: int)
    ensures forall i :: 0 <= i < |tasks| && tasks[i].id == id
                        && tasks[i].status != Pending && tasks[i].status != Completed ==>
      ToggleStatusById(ToggleStatusById(tasks, id), id)[i] == tasks[i].(status := Pending)
  {
  }

  /** Toggling keeps every id in place, so distinct ids stay distinct. */
  lemma ToggleKeepsDistinctIds(tasks: seq<Task>, id: int)
    requires DistinctIds(tasks)
    ensures DistinctIds(ToggleStatusById(tasks, id))
  {
  }

  /** `tasks.filter(task => task.id !== taskId)` in `deleteTask`. */
  function RemoveById(tasks: seq<Task>, id: int): (r: seq<Task>)
    ensures forall t :: t in r ==> t.id != id
    ensures forall t: Task :: t.id != id ==> multiset(r)[t] == multiset(tasks)[t]
    ensures IsSubsequence(r, tasks)
    ensures (forall t :: t in tasks ==> t.id != id) ==> r == tasks
  {
    var keep := (t: Task) => t.id != id;
    KeepCount(tasks, keep);
    if forall t :: t in tasks ==> t.id != id then
      KeepAll(tasks, keep);
      Keep(tasks, keep)
    else
      Keep(tasks, keep)
  }

  /** Deleting never introduces a repeated id. */
  lemma RemoveKeepsDistinctIds(tasks: seq<Task>, id: int)
    requires DistinctIds(tasks)
    ensures DistinctIds(RemoveById(tasks, id))
  {
    KeepKeepsDistinctIds(tasks, (t: Task) => t.id != id);
  }

  /** Deleting an absent id from a three-task list leaves all three, in order. */
  lemma RemoveAbsentScenario(a: Task, b: Task, c: Task, id: int)
    requires a.id != id && b.id != id && c.id != id
    ensures RemoveById([a, b, c], id) == [a, b, c]
  {
  }

  /** The details panel of `item` is open: `selectedTask?.id === item.id`. */
  predicate ShowsDetails(selected: Option<Task>, item: Task)
  {
    selected.Some? && selected.value.id == item.id
  }

  /**
   `handleTaskPress`: pressing the selected task (same id) clears the
   selection; pressing any other task, or pressing with nothing selected,
   selects it.
   */
  function PressTask(selected: Option<Task>, task: Task): (r: Option<Task>)
    ensures r.None? <==> ShowsDetails(selected, task)
    ensures r.Some? ==> r.value == task
  {
    if selected.Some? && selected.value.id == task.id then None else Some(task)
  }

  /**
   After a press on `task`, an item's details are open exactly when it has
   `task`'s id and `task`'s details were closed before: the press flips that
   panel and closes every other one.
   */
  lemma PressFlipsDetails(selected: Option<Task>, task: Task, item: Task)
    ensures ShowsDetails(PressTask(selected, task), item)
      <==> item.id == task.id && !ShowsDetails(selected, task)
  {
  }

  /** Pressing the same task twice from no selection returns to no selection. */
  lemma PressTwiceClears(task: Task)
    ensures PressTask(PressTask(None, task), task) == None
  {
  }

  /**
   Load on mount: the in-memory list starts empty and becomes the stored list
   when the read succeeds and finds one. A failed read is not caught, so the
   list simply stays empty.
   */
  function Mount(stored: Option<seq<Task>>, readOk: bool): (s: AppState)
    ensures s.stored == stored
    ensures readOk && stored.Some? ==> s.tasks == stored.value
    ensures !readOk || stored.None? ==> s.tasks == []
    ensures readOk ==> InSync(s)
  {
    var initial: seq<Task> := [];
    AppState(if readOk && stored.Some? then stored.value else initial, stored)
  }

  /**
   `toggleTaskStatus`: the in-memory list becomes the toggled list, and when
   the storage write succeeds the stored entry equals it; a failed write
   (rejected after the in-memory update) leaves the stored entry as it was.
   */
  function ToggleTaskStatus(s: AppState, id: int, writeOk: bool): (r: AppState)
    ensures r.tasks == ToggleStatusById(s.tasks, id)
    ensures writeOk ==> r.stored == Some(r.tasks) && InSync(r)
    ensures !writeOk ==> r.stored == s.stored
  {
    var updated := ToggleStatusById(s.tasks, id);
    AppState(updated, if writeOk then Some(updated) else s.stored)
  }

  /**
   `deleteTask`: the in-memory list loses every task with the id, and when
   the storage write succeeds the stored entry equals it; a failed write
   leaves the stored entry as it was.
   */
  function DeleteTask(s: AppState, id: int, writeOk: bool): (r: AppState)
    ensures r.tasks == RemoveById(s.tasks, id)
    ensures forall t :: t in r.tasks ==> t.id != id
    ensures writeOk ==> r.stored == Some(r.tasks) && InSync(r)
    ensures !writeOk ==> r.stored == s.stored
  {
    var updated := RemoveById(s.tasks, id);
    AppState(updated, if writeOk then Some(updated) else s.stored)
  }
}
