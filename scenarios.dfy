/**
 * Sequences of handler runs on one shared store, with what each sequence
 * guarantees.
 */
module Scenarios {
  import opened Wrappers
  import opened Tasks
  import opened Storage
  import opened TaskMerge
  import opened Home
  import opened Details

  /**
   * Two loads in a row: once the first has left a snapshot in the store (it
   * found one, or fetched one and the write was accepted), the second makes
   * no remote request and shows the same list.
   */
  method LoadTwice(home: HomeScreen, store: TaskStore, first: FetchOutcome, second: FetchOutcome, saveAccepted: bool)
    returns (firstRequested: bool, secondRequested: bool)
    requires store.Snapshot().Some? || (first.Fetched? && saveAccepted)
    modifies home, store
    ensures !secondRequested
    ensures firstRequested <==> old(store.Snapshot()).None?
    ensures home.tasks == (if old(store.Snapshot()).Some? then old(store.Snapshot()).value else first.data)
    ensures !home.error && !home.loading
  {
    firstRequested := home.FetchTasks(store, first, saveAccepted);
    secondRequested := home.FetchTasks(store, second, saveAccepted);
  }

  /**
   * Confirming twice with a cached list and no failed write: the displayed
   * task is the original record again, and every cached entry with its id
   * now holds that original record.
   */
  method ConfirmTwice(details: DetailsScreen, store: TaskStore) returns (first: ToggleOutcome, second: ToggleOutcome)
    requires !details.isToggling && store.Snapshot().Some?
    modifies details, store
    ensures first == Saved && second == Saved
    ensures details.task == old(details.task) && !details.isToggling
    ensures store.Snapshot() == Some(ReplaceById(old(store.Snapshot()).value, old(details.task)))
  {
    ghost var cachedBefore := store.Snapshot().value;
    ghost var original := details.task;
    first := details.Press(Yes, store, true);
    second := details.Press(Yes, store, true);
    ToggledTwice(original);
    ToggleTwiceRestores(cachedBefore, original);
  }

  /**
   * A toggle on the Details screen followed by the Home screen's reload on
   * focus: the reload makes no request and shows the cached list with the
   * toggled record merged in.
   */
  method ToggleThenReturn(details: DetailsScreen, home: HomeScreen, store: TaskStore, remote: FetchOutcome, saveAccepted: bool)
    returns (outcome: ToggleOutcome, requested: bool)
    requires !details.isToggling && store.Snapshot().Some?
    modifies details, home, store
    ensures outcome == Saved && !requested && !home.error
    ensures home.tasks == ReplaceById(old(store.Snapshot()).value, Toggled(old(details.task)))
  {
    outcome := details.Press(Yes, store, true);
    requested := home.FetchTasks(store, remote, saveAccepted);
  }
}
