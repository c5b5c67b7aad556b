/**
 * The persistent key/value store behind `getTasks` / `saveTasks`. Values are
 * held already decoded: serialising a flat task list to text and parsing it
 * back is taken to be the identity.
 */
module Storage {
  import opened Wrappers
  import opened Tasks

  /** The one key under which the whole task list is kept. */
  const TasksKey: string := "TASKS_DATA"

  class TaskStore {
    /** Everything the store holds, by key. */
    var items: map<string, seq<Task>>

    /** The task snapshot as `getTasks` sees it: absent, or the stored list (an empty list is present). */
    function Snapshot(): (r: Option<seq<Task>>)
      reads this
      ensures r.Some? <==> TasksKey in items
      ensures r.Some? ==> r.value == items[TasksKey]
    {
      if TasksKey in items then Some(items[TasksKey]) else None
    }

    /** A store with nothing saved under any key. */
    constructor ()
      ensures items == map[]
      ensures Snapshot() == None
    {
      items := map[];
    }

    /**
     * `saveTasks`: replaces the whole snapshot. `accepted` is whether the
     * underlying store takes the write; a refused write leaves it as it was.
     */
    method SaveTasks(tasks: seq<Task>, accepted: bool) returns (ok: bool)
      modifies this
      ensures ok == accepted
      ensures items == if accepted then old(items)[TasksKey := tasks] else old(items)
      ensures Snapshot() == if accepted then Some(tasks) else old(Snapshot())
    {
      ok := accepted;
      if accepted {
        items := items[TasksKey := tasks];
      }
    }

    /** `getTasks`: `None` when nothing is stored, otherwise the stored list, even an empty one. */
    method GetTasks() returns (r: Option<seq<Task>>)
      ensures r.None? <==> TasksKey !in items
      ensures r.Some? ==> r.value == items[TasksKey]
    {
      r := Snapshot();
    }
  }
}
