/** The flat task record that the remote endpoint returns and the cache stores. */
module Tasks {

  /** One todo item: `{id, userId, title, completed}`. */
  datatype Task = Task(id: int, userId: int, title: string, completed: bool)

  /** The record `{ ...task, completed: !task.completed }`: every field copied, `completed` negated. */
  function Toggled(t: Task): (r: Task)
    ensures r.id == t.id && r.userId == t.userId && r.title == t.title
    ensures r.completed != t.completed
  {
    t.(completed := !t.completed)
  }

  /** Negating `completed` twice gives back the original record. */
  lemma ToggledTwice(t: Task)
    ensures Toggled(Toggled(t)) == t
  {
  }

  /** The ids of a list, in list order. */
  function Ids(tasks: seq<Task>): (r: seq<int>)
    ensures |r| == |tasks|
    ensures forall i :: 0 <= i < |tasks| ==> r[i] == tasks[i].id
  {
    if tasks == [] then [] else [tasks[0].id] + Ids(tasks[1..])
  }

  /** No two entries of the list share an id (the invariant a snapshot from the endpoint has). */
  predicate UniqueIds(tasks: seq<Task>)
  {
    forall i, j :: 0 <= i < j < |tasks| ==> tasks[i].id != tasks[j].id
  }

  /** Some entry of the list has the given id. */
  predicate HasId(tasks: seq<Task>, id: int)
  {
    exists i :: 0 <= i < |tasks| && tasks[i].id == id
  }
}
