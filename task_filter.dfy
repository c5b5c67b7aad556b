/**
 * The Home screen's `filteredTasks`: the visible part of the task list for
 * the active filter value. Only "COMPLETED" and "INCOMPLETE" select; any
 * other value, "ALL" included, keeps every task.
 */
module TaskFilter {
  import opened Tasks

  const All: string := "ALL"
  const Completed: string := "COMPLETED"
  const Incomplete: string := "INCOMPLETE"

  /** The per-task predicate handed to `tasks.filter`. */
  predicate Keeps(filter: string, t: Task)
  {
    if filter == Completed then t.completed
    else if filter == Incomplete then !t.completed
    else true
  }

  /** `tasks.filter(...)`: the tasks the filter keeps, in list order. */
  function FilteredTasks(tasks: seq<Task>, filter: string): (r: seq<Task>)
    ensures |r| <= |tasks|
    ensures forall t :: t in r <==> t in tasks && Keeps(filter, t)
  {
    if tasks == [] then []
    else (if Keeps(filter, tasks[0]) then [tasks[0]] else []) + FilteredTasks(tasks[1..], filter)
  }

  /** `r` is `s` with some entries dropped and the rest in their original order. */
  predicate IsSubsequence(r: seq<Task>, s: seq<Task>)
  {
    if r == [] then true
    else if s == [] then false
    else if r[0] == s[0] then IsSubsequence(r[1..], s[1..])
    else IsSubsequence(r, s[1..])
  }

  /** "ALL", and every value that is neither "COMPLETED" nor "INCOMPLETE", returns the list unchanged. */
  lemma {:induction false} FilterOtherIsIdentity(tasks: seq<Task>, filter: string)
    requires filter != Completed && filter != Incomplete
    ensures FilteredTasks(tasks, filter) == tasks
  {
    if tasks != [] {
      FilterOtherIsIdentity(tasks[1..], filter);
      assert tasks == [tasks[0]] + tasks[1..];
    }
  }

  /** Filtering a concatenation filters each part and keeps them in order. */
  lemma {:induction false} FilterConcat(a: seq<Task>, b: seq<Task>, filter: string)
    ensures FilteredTasks(a + b, filter) == FilteredTasks(a, filter) + FilteredTasks(b, filter)
  {
    if a == [] {
      assert a + b == b;
    } else {
      assert (a + b)[0] == a[0];
      assert (a + b)[1..] == a[1..] + b;
      FilterConcat(a[1..], b, filter);
    }
  }

  /** The filtered list is an order-preserving selection from the list. */
  lemma {:induction false} FilterIsSubsequence(tasks: seq<Task>, filter: string)
    ensures IsSubsequence(FilteredTasks(tasks, filter), tasks)
  {
    if tasks != [] {
      FilterIsSubsequence(tasks[1..], filter);
      var r := FilteredTasks(tasks, filter);
      if !Keeps(filter, tasks[0]) && r != [] {
        assert r == FilteredTasks(tasks[1..], filter);
        assert r[0] in r;
        assert r[0] != tasks[0];
      }
    }
  }

  /** Every occurrence of a kept task survives, and no occurrence of a dropped one. */
  lemma {:induction false} FilterCounts(tasks: seq<Task>, filter: string, t: Task)
    ensures multiset(FilteredTasks(tasks, filter))[t] == if Keeps(filter, t) then multiset(tasks)[t] else 0
  {
    if tasks != [] {
      FilterCounts(tasks[1..], filter, t);
      assert tasks == [tasks[0]] + tasks[1..];
    }
  }

  /**
   * "COMPLETED" and "INCOMPLETE" split the list: their lengths add up to its
   * length, together they hold exactly its entries, and each task of the list
   * is in exactly one of them.
   */
  lemma {:induction false} FilterPartition(tasks: seq<Task>)
    ensures |FilteredTasks(tasks, Completed)| + |FilteredTasks(tasks, Incomplete)| == |tasks|
    ensures multiset(FilteredTasks(tasks, Completed)) + multiset(FilteredTasks(tasks, Incomplete)) == multiset(tasks)
    ensures forall t :: t in tasks ==> (t in FilteredTasks(tasks, Completed) <==> t !in FilteredTasks(tasks, Incomplete))
  {
    if tasks != [] {
      FilterPartition(tasks[1..]);
      assert tasks == [tasks[0]] + tasks[1..];
    }
  }

  /** Filtering an already filtered list with the same value changes nothing. */
  lemma {:induction false} FilterIdempotent(tasks: seq<Task>, filter: string)
    ensures FilteredTasks(FilteredTasks(tasks, filter), filter) == FilteredTasks(tasks, filter)
  {
    if tasks != [] {
      var head := if Keeps(filter, tasks[0]) then [tasks[0]] else [];
      FilterConcat(head, FilteredTasks(tasks[1..], filter), filter);
      FilterIdempotent(tasks[1..], filter);
      if Keeps(filter, tasks[0]) {
        assert FilteredTasks(head, filter) == [tasks[0]] + FilteredTasks([], filter);
      }
    }
  }
}
