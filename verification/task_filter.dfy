/**
 The dashboard's `filteredTasks` pipeline: three successive filters over the
 task list, by name search (ignoring case), by category and by status. An empty
 criterion lets every task through.
 */
module TaskFilter {
  import opened Text
  import opened Tasks

  /** The task's lower-cased name contains the lower-cased search text. */
  predicate MatchesSearch(t: Task, search: string)
  {
    Contains(Lower(t.name), Lower(search))
  }

  /** An empty category filter means "all categories". */
  predicate MatchesCategory(t: Task, category: string)
  {
    category == "" || t.category == category
  }

  /** An empty status filter means "all statuses". */
  predicate MatchesStatus(t: Task, status: string)
  {
    status == "" || t.status == status
  }

  /** The reference definition: a task is visible when it meets all three criteria. */
  predicate Visible(t: Task, search: string, category: string, status: string)
  {
    MatchesSearch(t, search) && MatchesCategory(t, category) && MatchesStatus(t, status)
  }

  /**
   The list the dashboard renders. Every visible task is kept as often as it
   occurs, nothing else is kept, and the relative order of `tasks` is preserved.
   */
  function FilteredTasks(tasks: seq<Task>, search: string, category: string, status: string): (r: seq<Task>)
    ensures forall t :: t in r ==> t in tasks && Visible(t, search, category, status)
    ensures forall t :: t in tasks && Visible(t, search, category, status) ==> t in r
    ensures forall t :: multiset(r)[t] == if Visible(t, search, category, status) then multiset(tasks)[t] else 0
    ensures IsSubsequence(r, tasks)
  {
    var byName := Keep(tasks, t => MatchesSearch(t, search));
    var byCategory := Keep(byName, t => MatchesCategory(t, category));
    var r := Keep(byCategory, t => MatchesStatus(t, status));
    FilterIsOnePass(tasks, search, category, status);
    var visible := (t: Task) => Visible(t, search, category, status);
    assert r == Keep(tasks, visible);
    KeepCount(tasks, visible);
    r
  }

  /**
   The three passes select exactly what a single pass with the conjunction of
   the criteria selects, element for element and in the same order.
   */
  lemma FilterIsOnePass(tasks: seq<Task>, search: string, category: string, status: string)
    ensures
      var byName := Keep(tasks, t => MatchesSearch(t, search));
      var byCategory := Keep(byName, t => MatchesCategory(t, category));
      Keep(byCategory, t => MatchesStatus(t, status))
        == Keep(tasks, t => Visible(t, search, category, status))
  {
    var pName := (t: Task) => MatchesSearch(t, search);
    var pCategory := (t: Task) => MatchesCategory(t, category);
    var pStatus := (t: Task) => MatchesStatus(t, status);
    var pNameCategory := (t: Task) => MatchesSearch(t, search) && MatchesCategory(t, category);
    var pAll := (t: Task) => Visible(t, search, category, status);
    KeepKeep(tasks, pName, pCategory, pNameCategory);
    KeepKeep(tasks, pNameCategory, pStatus, pAll);
  }

  /** With no search text and no filters, the dashboard shows the whole list. */
  lemma NoCriteriaShowsAll(tasks: seq<Task>)
    ensures FilteredTasks(tasks, "", "", "") == tasks
  {
    forall t | t in tasks
      ensures Visible(t, "", "", "")
    {
      ContainsEmpty(Lower(t.name));
    }
    FilterIsOnePass(tasks, "", "", "");
    KeepAll(tasks, t => Visible(t, "", "", ""));
  }

  /**
   Search is case-insensitive: a listed task whose name contains the search
   text as typed, and which passes the category and status filters, is shown.
   */
  lemma LiteralMatchIsFound(tasks: seq<Task>, t: Task, search: string, category: string, status: string)
    requires t in tasks
    requires Contains(t.name, search)
    requires MatchesCategory(t, category) && MatchesStatus(t, status)
    ensures t in FilteredTasks(tasks, search, category, status)
  {
    ContainsIgnoringCase(t.name, search);
  }

  /** Filtering by category "Work" picks the completed Work task and not the pending Personal one. */
  lemma CategoryScenario()
    ensures
      var work := Task(1, "Report", "Friday", "Work", Completed);
      var home := Task(2, "Groceries", "Today", "Personal", Pending);
      FilteredTasks([work, home], "", "Work", "") == [work]
  {
    var work := Task(1, "Report", "Friday", "Work", Completed);
    var home := Task(2, "Groceries", "Today", "Personal", Pending);
    FilterIsOnePass([work, home], "", "Work", "");
    ContainsEmpty(Lower(work.name));
    assert Visible(work, "", "Work", "");
    assert !Visible(home, "", "Work", "");
    assert [work, home][1..] == [home];
  }
}
