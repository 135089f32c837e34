/**
 Runs of user operations across both screens, with every storage access
 succeeding and the dashboard's setter handed to the add-task screen. Each
 operation leaves storage holding exactly the in-memory list, so a reload at
 any point gives back the list the user was looking at.
 */
module Session {
  import opened Wrappers
  import opened Tasks
  import Dashboard
  import AddTask

  datatype Action =
    | Toggle(id: int)
    | Delete(id: int)
    | Add(id: int, name: string, deadline: string, category: string)

  function Apply(s: AppState, a: Action): AppState
  {
    match a
    case Toggle(id) => Dashboard.ToggleTaskStatus(s, id, true)
    case Delete(id) => Dashboard.DeleteTask(s, id, true)
    case Add(id, name, deadline, category) =>
      AddTask.HandleAddTask(s, id, name, deadline, category, true, true, true).state
  }

  /** The state after a run of actions, oldest first. */
  function Run(s: AppState, actions: seq<Action>): AppState
    decreases |actions|
  {
    if |actions| == 0 then s else Run(Apply(s, actions[0]), actions[1..])
  }

  /** A single successful operation leaves the stored list equal to the in-memory list. */
  lemma ApplyKeepsSync(s: AppState, a: Action)
    requires InSync(s)
    ensures InSync(Apply(s, a))
  {
  }

  /** Starting from a synchronised state, every run stays synchronised. */
  lemma {:induction false} RunKeepsSync(s: AppState, actions: seq<Action>)
    requires InSync(s)
    ensures InSync(Run(s, actions))
    decreases |actions|
  {
    if |actions| > 0 {
      ApplyKeepsSync(s, actions[0]);
      RunKeepsSync(Apply(s, actions[0]), actions[1..]);
    }
  }

  /**
   Load, then any run of operations: mounting the dashboard again from what is
   stored yields exactly the list in memory.
   */
  lemma {:induction false} ReloadRoundTrip(stored: Option<seq<Task>>, actions: seq<Action>)
    ensures
      var s := Run(Dashboard.Mount(stored, true), actions);
      Dashboard.Mount(s.stored, true).tasks == s.tasks
  {
    RunKeepsSync(Dashboard.Mount(stored, true), actions);
  }
}
