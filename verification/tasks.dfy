/** The entries of the task registry `SEARCH_TASKS` (telegram_bot.py:23). An
    entry is a Python dict whose keys depend on how it was written, so every
    key that is not always present is an `Option`. */
module Tasks {
  import opened Basics
  import opened Lookup

  datatype Status = Processing | Completed | Error

  /** The `progress` key: the literal 0 written when the task starts, later
      `done / outOf * 100` held as an exact ratio. */
  datatype Percent = Zero | Ratio(done: nat, outOf: nat)

  type Timestamp = int

  datatype Task = Task(
    status: Status,
    error: Option<string>,
    progress: Option<Percent>,
    total: Option<nat>,
    processed: Option<nat>,
    results: seq<SearchResult>,
    startedAt: Option<Timestamp>,
    completedAt: Option<Timestamp>,
    totalFound: Option<nat>)

  /** The task registry, keyed by task id. */
  type Registry = map<string, Task>

  /** `sum(1 for r in results if r.get("found", False))`. */
  function CountFound(results: seq<SearchResult>): nat
    decreases |results|
  {
    if results == [] then 0
    else CountFound(results[..|results| - 1]) + (if results[|results| - 1].found then 1 else 0)
  }

  /** Positions of the found records. */
  function FoundPositions(results: seq<SearchResult>): set<nat> {
    set k: nat | k < |results| && results[k].found
  }

  /** The count is the number of found records, whatever their positions. */
  lemma {:induction false} CountFoundIsCardinality(results: seq<SearchResult>)
    ensures CountFound(results) == |FoundPositions(results)|
    ensures CountFound(results) <= |results|
    decreases |results|
  {
    if results != [] {
      var n := |results| - 1;
      var prefix := results[..n];
      CountFoundIsCardinality(prefix);
      if results[n].found {
        assert FoundPositions(results) == FoundPositions(prefix) + {n};
      } else {
        assert FoundPositions(results) == FoundPositions(prefix);
      }
    }
  }
}
