/**
 * The Details screen's state and its completion toggle. The user's answer to
 * the confirmation dialog and whether the store accepts the write are
 * supplied by the caller; the error dialog becomes an outcome value.
 */
module Details {
  import opened Wrappers
  import opened Tasks
  import opened Storage
  import opened TaskMerge

  /** The two buttons of the confirmation dialog. */
  datatype Choice = Yes | Cancel

  /** How one press of the toggle button ended. */
  datatype ToggleOutcome =
    | Disabled     // the button was disabled while a toggle was in progress
    | Cancelled    // the user chose Cancel
    | NoSnapshot   // the cache held no list: the handler returned early
    | Saved        // the merged list was written back
    | SaveFailed   // the write threw: the "Failed to update task" dialog

  class DetailsScreen {
    var task: Task
    var isToggling: bool

    /** The screen opened on the task passed as a route parameter. */
    constructor (routeTask: Task)
      ensures task == routeTask && !isToggling
    {
      task := routeTask;
      isToggling := false;
    }

    /**
     * The "Yes" handler. The displayed task is flipped first, whatever the
     * cache holds. With no cached list the handler stops there and leaves
     * `isToggling` raised. Otherwise the cached list, with every entry of the
     * task's id replaced by the flipped record, is written back, and
     * `isToggling` is lowered whether the write succeeds or throws.
     */
    method Confirm(store: TaskStore, writeAccepted: bool) returns (outcome: ToggleOutcome)
      modifies this, store
      ensures task == Toggled(old(task))
      ensures old(store.Snapshot()).None? ==>
        outcome == NoSnapshot && isToggling && store.items == old(store.items)
      ensures old(store.Snapshot()).Some? && writeAccepted ==>
        outcome == Saved && !isToggling &&
        store.items == old(store.items)[TasksKey := ReplaceById(old(store.Snapshot()).value, Toggled(old(task)))]
      ensures old(store.Snapshot()).Some? && !writeAccepted ==>
        outcome == SaveFailed && !isToggling && store.items == old(store.items)
    {
      isToggling := true;
      var updatedTask := Toggled(task);
      task := updatedTask;
      var cached := store.GetTasks();
      if cached.None? {
        return NoSnapshot;
      }
      var updatedTasks := ReplaceById(cached.value, updatedTask);
      var ok := store.SaveTasks(updatedTasks, writeAccepted);
      isToggling := false;
      outcome := if ok then Saved else SaveFailed;
    }

    /** `toggleStatus`: ask for confirmation; Cancel changes nothing, Yes runs the handler. */
    method ToggleStatus(choice: Choice, store: TaskStore, writeAccepted: bool) returns (outcome: ToggleOutcome)
      modifies this, store
      ensures choice == Cancel ==>
        outcome == Cancelled && task == old(task) && isToggling == old(isToggling) && store.items == old(store.items)
      ensures choice == Yes ==> task == Toggled(old(task))
      ensures choice == Yes && old(store.Snapshot()).None? ==>
        outcome == NoSnapshot && isToggling && store.items == old(store.items)
      ensures choice == Yes && old(store.Snapshot()).Some? && writeAccepted ==>
        outcome == Saved && !isToggling &&
        store.items == old(store.items)[TasksKey := ReplaceById(old(store.Snapshot()).value, Toggled(old(task)))]
      ensures choice == Yes && old(store.Snapshot()).Some? && !writeAccepted ==>
        outcome == SaveFailed && !isToggling && store.items == old(store.items)
    {
      if choice == Cancel {
        return Cancelled;
      }
      outcome := Confirm(store, writeAccepted);
    }

    /** The toggle button: disabled while `isToggling`, otherwise it opens the dialog. */
    method Press(choice: Choice, store: TaskStore, writeAccepted: bool) returns (outcome: ToggleOutcome)
      modifies this, store
      ensures old(isToggling) ==>
        outcome == Disabled && task == old(task) && isToggling && store.items == old(store.items)
      ensures !old(isToggling) && choice == Cancel ==>
        outcome == Cancelled && task == old(task) && !isToggling && store.items == old(store.items)
      ensures !old(isToggling) && choice == Yes ==> task == Toggled(old(task))
      ensures !old(isToggling) && choice == Yes && old(store.Snapshot()).None? ==>
        outcome == NoSnapshot && isToggling && store.items == old(store.items)
      ensures !old(isToggling) && choice == Yes && old(store.Snapshot()).Some? && writeAccepted ==>
        outcome == Saved && !isToggling &&
        store.items == old(store.items)[TasksKey := ReplaceById(old(store.Snapshot()).value, Toggled(old(task)))]
      ensures !old(isToggling) && choice == Yes && old(store.Snapshot()).Some? && !writeAccepted ==>
        outcome == SaveFailed && !isToggling && store.items == old(store.items)
    {
      if isToggling {
        return Disabled;
      }
      outcome := ToggleStatus(choice, store, writeAccepted);
    }
  }
}
