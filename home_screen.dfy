/**
 * The Home screen's state and its two loading handlers. Each handler runs as
 * one step; the outcome of the remote request and whether the store accepts
 * the write-back are supplied by the caller.
 */
module Home {
  import opened Wrappers
  import opened Tasks
  import opened Storage
  import opened TaskFilter

  /** What `fetch(API_URL)` followed by `res.json()` produced: a parsed task list, or a thrown error. */
  datatype FetchOutcome = Fetched(data: seq<Task>) | FetchFailed

  class HomeScreen {
    var tasks: seq<Task>
    var filter: string
    var loading: bool
    var error: bool
    var refreshing: bool

    /** The initial `useState` values. */
    constructor ()
      ensures tasks == [] && filter == All
      ensures loading && !error && !refreshing
    {
      tasks := [];
      filter := All;
      loading := true;
      error := false;
      refreshing := false;
    }

    /** The list the screen renders: `filteredTasks`. */
    function VisibleTasks(): (r: seq<Task>)
      reads this
      ensures forall t :: t in r <==> t in tasks && Keeps(filter, t)
    {
      FilteredTasks(tasks, filter)
    }

    /** A filter button: `setFilter(f)`. */
    method SetFilter(f: string)
      modifies this`filter
      ensures filter == f
    {
      filter := f;
    }

    /**
     * `fetchTasks`: cache first. A stored snapshot (even an empty one) is
     * shown and the network is skipped; otherwise the remote list is shown
     * and written back. A failed request sets `error` and keeps the old list.
     * `loading` ends false on every path. `requested` tells whether the
     * remote endpoint was asked.
     */
    method FetchTasks(store: TaskStore, remote: FetchOutcome, saveAccepted: bool) returns (requested: bool)
      modifies this, store
      ensures filter == old(filter) && refreshing == old(refreshing)
      ensures !loading
      ensures requested <==> old(store.Snapshot()).None?
      ensures old(store.Snapshot()).Some? ==>
        tasks == old(store.Snapshot()).value && !error && store.items == old(store.items)
      ensures old(store.Snapshot()).None? && remote.Fetched? ==>
        tasks == remote.data && !error &&
        store.items == if saveAccepted then old(store.items)[TasksKey := remote.data] else old(store.items)
      ensures old(store.Snapshot()).None? && remote.FetchFailed? ==>
        tasks == old(tasks) && error && store.items == old(store.items)
    {
      loading := true;
      error := false;
      var cached := store.GetTasks();
      if cached.Some? {
        tasks := cached.value;
        loading := false;
        return false;
      }
      requested := true;
      match remote {
        case FetchFailed =>
          error := true;
        case Fetched(data) =>
          tasks := data;
          // The write is not awaited: a refused write never reaches the catch block.
          var _ := store.SaveTasks(data, saveAccepted);
      }
      loading := false;
    }

    /** `onRefresh`: `fetchTasks` between raising and lowering `refreshing`. */
    method OnRefresh(store: TaskStore, remote: FetchOutcome, saveAccepted: bool) returns (requested: bool)
      modifies this, store
      ensures !refreshing && !loading && filter == old(filter)
      ensures requested <==> old(store.Snapshot()).None?
      ensures old(store.Snapshot()).Some? ==>
        tasks == old(store.Snapshot()).value && !error && store.items == old(store.items)
      ensures old(store.Snapshot()).None? && remote.Fetched? ==>
        tasks == remote.data && !error &&
        store.items == if saveAccepted then old(store.items)[TasksKey := remote.data] else old(store.items)
      ensures old(store.Snapshot()).None? && remote.FetchFailed? ==>
        tasks == old(tasks) && error && store.items == old(store.items)
    {
      refreshing := true;
      requested := FetchTasks(store, remote, saveAccepted);
      refreshing := false;
    }
  }
}
