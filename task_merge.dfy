/**
 * The Details screen's merge of the updated task into the cached list:
 * `tasks.map(t => t.id === updatedTask.id ? updatedTask : t)`.
 */
module TaskMerge {
  import opened Tasks

  /**
   * The list with every entry whose id is `updated.id` replaced by the whole
   * `updated` record; all other entries, the length and the order are kept.
   */
  function ReplaceById(tasks: seq<Task>, updated: Task): (r: seq<Task>)
    ensures |r| == |tasks|
    ensures forall i :: 0 <= i < |tasks| && tasks[i].id == updated.id ==> r[i] == updated
    ensures forall i :: 0 <= i < |tasks| && tasks[i].id != updated.id ==> r[i] == tasks[i]
  {
    if tasks == [] then []
    else [if tasks[0].id == updated.id then updated else tasks[0]] + ReplaceById(tasks[1..], updated)
  }

  /** With no entry carrying the id, the merged list is the cached list itself: no error, nothing changed. */
  lemma ReplaceAbsentIsIdentity(tasks: seq<Task>, updated: Task)
    requires !HasId(tasks, updated.id)
    ensures ReplaceById(tasks, updated) == tasks
  {
  }

  /** With an entry carrying the id, the updated record appears in the merged list. */
  lemma ReplacePresentContainsUpdated(tasks: seq<Task>, updated: Task)
    requires HasId(tasks, updated.id)
    ensures updated in ReplaceById(tasks, updated)
  {
    var i :| 0 <= i < |tasks| && tasks[i].id == updated.id;
    assert ReplaceById(tasks, updated)[i] == updated;
  }

  /** The merge keeps every id in place, so a list with unique ids keeps unique ids. */
  lemma ReplaceKeepsIds(tasks: seq<Task>, updated: Task)
    ensures Ids(ReplaceById(tasks, updated)) == Ids(tasks)
    ensures UniqueIds(tasks) ==> UniqueIds(ReplaceById(tasks, updated))
  {
  }

  /** Merging two records with the same id one after the other leaves the effect of the second alone. */
  lemma ReplaceTwice(tasks: seq<Task>, first: Task, second: Task)
    requires first.id == second.id
    ensures ReplaceById(ReplaceById(tasks, first), second) == ReplaceById(tasks, second)
  {
  }

  /**
   * Merging the toggled task and then the task toggled back sets every
   * entry with that id to the original record.
   */
  lemma ToggleTwiceRestores(tasks: seq<Task>, t: Task)
    ensures ReplaceById(ReplaceById(tasks, Toggled(t)), Toggled(Toggled(t))) == ReplaceById(tasks, t)
  {
    ToggledTwice(t);
    ReplaceTwice(tasks, Toggled(t), t);
  }
}
