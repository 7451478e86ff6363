/** The two read-only request handlers over the task registry:
    `get_search_status` and `get_search_results` (telegram_bot.py:366-401). */
module Queries {
  import opened Basics
  import opened Lookup
  import opened Tasks
  import opened Engine

  const TaskNotFound: string := "Задача не найдена"
  const TaskNotCompleted: string := "Задача еще не завершена"

  /** The status response; absent keys are replaced by their defaults. */
  datatype StatusView = StatusView(
    taskId: string,
    status: Status,
    progress: Percent,
    processed: nat,
    total: nat,
    totalFound: nat,
    startedAt: Option<Timestamp>,
    completedAt: Option<Timestamp>,
    results: seq<SearchResult>)

  /** The results response of a completed task. */
  datatype ResultsView = ResultsView(
    taskId: string,
    totalProcessed: nat,
    totalFound: nat,
    results: seq<SearchResult>)

  function GetSearchStatus(registry: Registry, taskId: string): (r: Result<StatusView, HttpError>)
    ensures r.Failure? <==> taskId !in registry
    ensures r.Failure? ==> r.error == HttpError(404, TaskNotFound)
    ensures r.Success? ==>
      && r.value.taskId == taskId
      && r.value.status == registry[taskId].status
      // results are withheld until the task has completed
      && r.value.results == (if registry[taskId].status == Completed then registry[taskId].results else [])
      && r.value.processed == registry[taskId].processed.GetOr(0)
      && r.value.total == registry[taskId].total.GetOr(0)
      && r.value.totalFound == registry[taskId].totalFound.GetOr(0)
      && r.value.progress == registry[taskId].progress.GetOr(Zero)
      && r.value.startedAt == registry[taskId].startedAt
      && r.value.completedAt == registry[taskId].completedAt
  {
    if taskId !in registry then Failure(HttpError(404, TaskNotFound))
    else
      var task := registry[taskId];
      Success(StatusView(
        taskId,
        task.status,
        task.progress.GetOr(Zero),
        task.processed.GetOr(0),
        task.total.GetOr(0),
        task.totalFound.GetOr(0),
        task.startedAt,
        task.completedAt,
        if task.status == Completed then task.results else []))
  }

  function GetSearchResults(registry: Registry, taskId: string): (r: Result<ResultsView, HttpError>)
    ensures r.Success? <==> taskId in registry && registry[taskId].status == Completed
    ensures taskId !in registry ==> r == Failure(HttpError(404, TaskNotFound))
    ensures taskId in registry && registry[taskId].status != Completed ==> r == Failure(HttpError(400, TaskNotCompleted))
    ensures r.Success? ==> r.value.results == registry[taskId].results && r.value.taskId == taskId
  {
    if taskId !in registry then Failure(HttpError(404, TaskNotFound))
    else
      var task := registry[taskId];
      if task.status != Completed then Failure(HttpError(400, TaskNotCompleted))
      else Success(ResultsView(taskId, task.processed.GetOr(0), task.totalFound.GetOr(0), task.results))
  }

  /** The two handlers agree: the results handler answers exactly when the
      status handler reports a completed task, and then with the same counts
      and results. */
  lemma ResultsAgreeWithStatus(registry: Registry, taskId: string)
    ensures GetSearchResults(registry, taskId).Success? <==>
      GetSearchStatus(registry, taskId).Success? && GetSearchStatus(registry, taskId).value.status == Completed
    ensures GetSearchResults(registry, taskId).Success? ==>
      var s := GetSearchStatus(registry, taskId).value;
      var v := GetSearchResults(registry, taskId).value;
      v.results == s.results && v.totalProcessed == s.processed && v.totalFound == s.totalFound
  {
  }

  /** A task that is not completed never exposes results through either
      handler. */
  lemma NoResultsBeforeCompletion(registry: Registry, taskId: string)
    requires taskId in registry && registry[taskId].status != Completed
    ensures GetSearchStatus(registry, taskId).Success?
    ensures GetSearchStatus(registry, taskId).value.results == []
    ensures GetSearchResults(registry, taskId).Failure?
  {
  }

  /** Querying a run's own task after it has completed: both handlers answer
      with one result per phone, in input order, and the found count. */
  lemma QueryAfterRun(clients: set<string>, registry: Registry, req: Request, phones: seq<string>,
                      outcomes: seq<Outcome>, startedAt: Timestamp, completedAt: Timestamp)
    requires |outcomes| == |phones|
    requires req.account in clients
    ensures var reg := SearchTask(clients, registry, req, phones, outcomes, startedAt, completedAt).registry;
      var r := GetSearchResults(reg, req.taskId);
      && r.Success?
      && |r.value.results| == |phones|
      && (forall k :: 0 <= k < |phones| ==> r.value.results[k].phone == phones[k])
      && r.value.totalFound == |FoundIndices(phones, outcomes)|
      && r.value.totalProcessed <= |phones|
      && GetSearchStatus(reg, req.taskId).value.total == |phones|
      && GetSearchStatus(reg, req.taskId).value.results == r.value.results
  {
    CompletedEntry(clients, registry, req, phones, outcomes, startedAt, completedAt);
  }

  /** Querying a run whose account had no client: the status handler reports
      the error with every counter at its default and no results, and the
      results handler refuses. */
  lemma QueryAfterMissingAccount(clients: set<string>, registry: Registry, req: Request, phones: seq<string>,
                                 outcomes: seq<Outcome>, startedAt: Timestamp, completedAt: Timestamp)
    requires |outcomes| == |phones|
    requires req.account !in clients
    ensures var reg := SearchTask(clients, registry, req, phones, outcomes, startedAt, completedAt).registry;
      && GetSearchStatus(reg, req.taskId) ==
           Success(StatusView(req.taskId, Error, Zero, 0, 0, 0, None, None, []))
      && GetSearchResults(reg, req.taskId) == Failure(HttpError(400, TaskNotCompleted))
  {
  }
}
