/**
 The task record, the generic order-preserving filter that `Array.prototype.filter`
 performs, and the application state shared by the dashboard and the add-task
 screen: the dashboard's in-memory list and the `"tasks"` storage entry.
 */
module Tasks {
  import opened Wrappers

  /** One to-do item, as the add-task screen builds it and storage holds it. */
  datatype Task = Task(id: int, name: string, deadline: string, category: string, status: string)

  const Pending: string := "Pending"
  const Completed: string := "Completed"

  /** `xs.filter(p)`: the elements satisfying `p`, in their original order. */
  function Keep<T(==,!new)>(xs: seq<T>, p: T -> bool): (r: seq<T>)
    ensures |r| <= |xs|
    ensures forall x :: x in r ==> x in xs && p(x)
    ensures forall x :: x in xs && p(x) ==> x in r
    ensures IsSubsequence(r, xs)
    decreases |xs|
  {
    if |xs| == 0 then []
    else
      var rest := Keep(xs[1..], p);
      if p(xs[0]) then [xs[0]] + rest else rest
  }

  /** Filtering keeps every element meeting the predicate as often as it occurs, and no other. */
  lemma {:induction false} KeepCount<T(!new)>(xs: seq<T>, p: T -> bool)
    ensures forall x :: multiset(Keep(xs, p))[x] == if p(x) then multiset(xs)[x] else 0
    decreases |xs|
  {
    if |xs| > 0 {
      assert xs == [xs[0]] + xs[1..];
      KeepCount(xs[1..], p);
    }
  }

  /** `a` can be obtained from `b` by deleting elements, without reordering. */
  ghost predicate IsSubsequence<T>(a: seq<T>, b: seq<T>)
    decreases |b|
  {
    if |a| == 0 then true
    else if |b| == 0 then false
    else (a[0] == b[0] && IsSubsequence(a[1..], b[1..])) || IsSubsequence(a, b[1..])
  }

  /** Filtering with a predicate every element satisfies returns the input. */
  lemma {:induction false} KeepAll<T(!new)>(xs: seq<T>, p: T -> bool)
    requires forall x :: x in xs ==> p(x)
    ensures Keep(xs, p) == xs
    decreases |xs|
  {
    if |xs| > 0 {
      KeepAll(xs[1..], p);
      assert [xs[0]] + xs[1..] == xs;
    }
  }

  /** Two successive filters are one filter with the conjoined predicate. */
  lemma {:induction false} KeepKeep<T(!new)>(xs: seq<T>, p: T -> bool, q: T -> bool, both: T -> bool)
    requires forall x :: both(x) == (p(x) && q(x))
    ensures Keep(Keep(xs, p), q) == Keep(xs, both)
    decreases |xs|
  {
    if |xs| > 0 {
      KeepKeep(xs[1..], p, q, both);
      var rest := Keep(xs[1..], p);
      if p(xs[0]) {
        assert Keep(xs, p) == [xs[0]] + rest;
        assert ([xs[0]] + rest)[1..] == rest;
      }
    }
  }

  /** No two tasks in the list share an id. */
  ghost predicate DistinctIds(tasks: seq<Task>)
  {
    forall i, j :: 0 <= i < j < |tasks| ==> tasks[i].id != tasks[j].id
  }

  /** The ids of a list, in order. */
  function Ids(tasks: seq<Task>): (r: seq<int>)
    ensures |r| == |tasks|
    ensures forall i :: 0 <= i < |tasks| ==> r[i] == tasks[i].id
  {
    seq(|tasks|, i requires 0 <= i < |tasks| => tasks[i].id)
  }

  /** Filtering never introduces a repeated id. */
  lemma {:induction false} KeepKeepsDistinctIds(tasks: seq<Task>, p: Task -> bool)
    requires DistinctIds(tasks)
    ensures DistinctIds(Keep(tasks, p))
    decreases |tasks|
  {
    if |tasks| > 0 {
      var rest := Keep(tasks[1..], p);
      KeepKeepsDistinctIds(tasks[1..], p);
      if p(tasks[0]) {
        forall x | x in tasks[1..]
          ensures x.id != tasks[0].id
        {
          var k :| 0 <= k < |tasks[1..]| && tasks[1..][k] == x;
          assert tasks[k + 1] == x;
        }
        DistinctIdsCons(tasks[0], rest);
      }
    }
  }

  /** Prepending a task whose id the list does not hold keeps the ids distinct. */
  lemma DistinctIdsCons(t: Task, rest: seq<Task>)
    requires DistinctIds(rest)
    requires forall x :: x in rest ==> x.id != t.id
    ensures DistinctIds([t] + rest)
  {
  }

  /**
   The state both screens act on: the dashboard's in-memory list and the
   `"tasks"` storage entry (`None` when nothing has been stored yet).
   */
  datatype AppState = AppState(tasks: seq<Task>, stored: Option<seq<Task>>)

  /** What reading the storage entry yields: the stored list, or `[]` when absent. */
  function StoredList(stored: Option<seq<Task>>): seq<Task>
  {
    match stored
    case Some(list) => list
    case None => []
  }

  /** The in-memory list is what a reload from storage would produce. */
  predicate InSync(s: AppState)
  {
    s.tasks == StoredList(s.stored)
  }
}
