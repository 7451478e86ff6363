/** The background batch lookup `search_contacts_by_phones_task`
    (telegram_bot.py:100-231), as a fold over the phones paired with the
    outcomes of their lookups. */
module Engine {
  import opened Basics
  import opened Phone
  import opened Lookup
  import opened Tasks

  /** The arguments of one run, apart from the phones. */
  datatype Request = Request(
    account: string,
    taskId: string,
    webhookUrl: Option<string>,
    fields: Fields)

  /** The body of the final webhook POST (telegram_bot.py:221-228). */
  datatype CompletionPayload = CompletionPayload(
    taskId: string,
    accountUsed: string,
    totalPhones: nat,
    totalFound: nat,
    results: seq<SearchResult>)

  /** What a run leaves behind: the registry, the entry as a status query
      could see it after each item, and the webhook it sends, if any. */
  datatype RunOutput = RunOutput(
    registry: Registry,
    snapshots: seq<Task>,
    webhook: Option<CompletionPayload>)

  /** The loop's variables: the local `results` list, the registry entry, and
      whether the entry's `results` key already refers to that same list (it
      does from the first item that assigns it; before that it is the fresh
      empty list written at start, and `continue` on an invalid phone does
      not assign it). */
  datatype LoopState = LoopState(acc: seq<SearchResult>, entry: Task, linked: bool)

  function AccountMissingError(account: string): string {
    "Аккаунт " + account + " не найден"
  }

  /** The entry written when the account has no client (telegram_bot.py:112-116). */
  function ErrorEntry(account: string): Task {
    Task(Error, Some(AccountMissingError(account)), None, None, None, [], None, None, None)
  }

  /** The entry written before the loop (telegram_bot.py:119-126). */
  function StartEntry(total: nat, startedAt: Timestamp): Task {
    Task(Processing, None, Some(Zero), Some(total), Some(0), [], Some(startedAt), None, None)
  }

  /** Python truthiness of `webhook_url`: present and non-empty. */
  predicate Truthy(url: Option<string>) {
    url.Some? && url.value != ""
  }

  /** One iteration of the loop, for item `i` of `n`. */
  function Step(req: Request, n: nat, st: LoopState, i: nat, phone: string, outcome: Outcome): (st': LoopState)
    requires i < n
    ensures st'.acc == st.acc + [ItemResult(req.account, req.fields, phone, outcome)]
    // only the found / not-found branch advances the counter, to i + 1
    ensures st'.entry.processed == (if PathOf(phone, outcome) == LookedUp then Some(i + 1) else st.entry.processed)
    ensures st'.entry.progress == (if PathOf(phone, outcome) == LookedUp then Some(Ratio(i + 1, n)) else st.entry.progress)
    ensures st'.linked <==> st.linked || PathOf(phone, outcome) != Invalid
    ensures st'.entry.results == (if st'.linked then st'.acc else st.entry.results)
    // nothing else in the entry changes
    ensures st'.entry.status == st.entry.status && st'.entry.error == st.entry.error
    ensures st'.entry.total == st.entry.total && st'.entry.startedAt == st.entry.startedAt
    ensures st'.entry.completedAt == st.entry.completedAt && st'.entry.totalFound == st.entry.totalFound
  {
    var acc := st.acc + [ItemResult(req.account, req.fields, phone, outcome)];
    match PathOf(phone, outcome)
    case Invalid =>
      LoopState(acc, if st.linked then st.entry.(results := acc) else st.entry, st.linked)
    case LookedUp =>
      LoopState(acc, st.entry.(processed := Some(i + 1), progress := Some(Ratio(i + 1, n)), results := acc), true)
    case FloodWaited =>
      LoopState(acc, st.entry.(results := acc), true)
    case Failed =>
      LoopState(acc, st.entry.(results := acc), true)
  }

  /** The loop's variables after the first `k` phones. */
  function StateAfter(req: Request, phones: seq<string>, outcomes: seq<Outcome>, startedAt: Timestamp, k: nat): LoopState
    requires |outcomes| == |phones| && k <= |phones|
    decreases k
  {
    if k == 0 then LoopState([], StartEntry(|phones|, startedAt), false)
    else Step(req, |phones|, StateAfter(req, phones, outcomes, startedAt, k - 1), k - 1, phones[k - 1], outcomes[k - 1])
  }

  /** The entry as a status query sees it once item `k` is done. */
  function Snapshot(req: Request, phones: seq<string>, outcomes: seq<Outcome>, startedAt: Timestamp, k: nat): Task
    requires |outcomes| == |phones| && k < |phones|
  {
    StateAfter(req, phones, outcomes, startedAt, k + 1).entry
  }

  /** The entry after each item, in order. */
  function Snapshots(req: Request, phones: seq<string>, outcomes: seq<Outcome>, startedAt: Timestamp): (s: seq<Task>)
    requires |outcomes| == |phones|
    ensures |s| == |phones|
  {
    seq(|phones|, k requires 0 <= k < |phones| => Snapshot(req, phones, outcomes, startedAt, k))
  }

  /** The final `update` (telegram_bot.py:211-216): keys written earlier stay. */
  function Complete(st: LoopState, completedAt: Timestamp): Task {
    st.entry.(status := Completed, completedAt := Some(completedAt), results := st.acc,
              totalFound := Some(CountFound(st.acc)))
  }

  /** A whole run against the registry, given the accounts that have a client
      and the outcome of looking up each phone (ignored for a phone with no
      digits, which is never looked up). */
  function SearchTask(clients: set<string>, registry: Registry, req: Request, phones: seq<string>,
                      outcomes: seq<Outcome>, startedAt: Timestamp, completedAt: Timestamp): (out: RunOutput)
    requires |outcomes| == |phones|
    // only the run's own id is written; it is created or overwritten
    ensures out.registry.Keys == registry.Keys + {req.taskId}
    ensures forall id :: id in registry && id != req.taskId ==> out.registry[id] == registry[id]
    ensures req.account !in clients ==>
      out.registry[req.taskId] == ErrorEntry(req.account) && out.snapshots == [] && out.webhook == None
    ensures req.account in clients ==>
      |out.snapshots| == |phones| && out.registry[req.taskId].status == Completed
    ensures out.webhook.Some? <==> req.account in clients && Truthy(req.webhookUrl)
  {
    if req.account !in clients then
      RunOutput(registry[req.taskId := ErrorEntry(req.account)], [], None)
    else
      var n := |phones|;
      var final := StateAfter(req, phones, outcomes, startedAt, n);
      var entry := Complete(final, completedAt);
      var snapshots := Snapshots(req, phones, outcomes, startedAt);
      var webhook :=
        if Truthy(req.webhookUrl) then
          Some(CompletionPayload(req.taskId, req.account, n, entry.totalFound.value, final.acc))
        else None;
      RunOutput(registry[req.taskId := entry], snapshots, webhook)
  }

  // ---------------------------------------------------------------------
  // Properties of the loop

  /** Item `j` reaches the lookup (found / not-found branch). */
  predicate LookedUpAt(phones: seq<string>, outcomes: seq<Outcome>, j: nat)
    requires |outcomes| == |phones| && j < |phones|
  {
    PathOf(phones[j], outcomes[j]) == LookedUp
  }

  /** Item `j` is reported found. */
  predicate FoundAt(phones: seq<string>, outcomes: seq<Outcome>, j: nat)
    requires |outcomes| == |phones| && j < |phones|
  {
    LookedUpAt(phones, outcomes, j) && outcomes[j].Resolved?
  }

  predicate AllInvalid(phones: seq<string>, outcomes: seq<Outcome>, k: nat)
    requires |outcomes| == |phones| && k <= |phones|
  {
    forall j :: 0 <= j < k ==> PathOf(phones[j], outcomes[j]) == Invalid
  }

  /** The counter's value after `k` items: zero when no item so far reached
      the lookup, otherwise one past the last item that did. */
  predicate IsLastLookup(phones: seq<string>, outcomes: seq<Outcome>, k: nat, p: nat)
    requires |outcomes| == |phones| && k <= |phones|
  {
    && p <= k
    && (p > 0 ==> LookedUpAt(phones, outcomes, p - 1))
    && (forall j :: p <= j < k ==> !LookedUpAt(phones, outcomes, j))
  }

  /** After `k` iterations the local list holds one result per phone so
      far, in input order. */
  lemma {:induction false} ResultsAligned(req: Request, phones: seq<string>, outcomes: seq<Outcome>, startedAt: Timestamp, k: nat)
    requires |outcomes| == |phones| && k <= |phones|
    ensures var acc := StateAfter(req, phones, outcomes, startedAt, k).acc;
      && |acc| == k
      && (forall j :: 0 <= j < k ==> acc[j] == ItemResult(req.account, req.fields, phones[j], outcomes[j]))
    decreases k
  {
    if k > 0 {
      ResultsAligned(req, phones, outcomes, startedAt, k - 1);
    }
  }

  /** After `k` iterations the entry still has the keys written at start,
      and its counter is set and at most `k`. */
  lemma {:induction false} EntryKept(req: Request, phones: seq<string>, outcomes: seq<Outcome>, startedAt: Timestamp, k: nat)
    requires |outcomes| == |phones| && k <= |phones|
    ensures var e := StateAfter(req, phones, outcomes, startedAt, k).entry;
      && e.status == Processing && e.error == None
      && e.total == Some(|phones|) && e.startedAt == Some(startedAt)
      && e.completedAt == None && e.totalFound == None
      && e.processed.Some? && e.processed.value <= k
    decreases k
  {
    if k > 0 {
      EntryKept(req, phones, outcomes, startedAt, k - 1);
    }
  }

  /** After `k` iterations `progress` is 0 until the counter is first set,
      and from then on the ratio of the counter to `total`. */
  lemma {:induction false} ProgressMatchesProcessed(req: Request, phones: seq<string>, outcomes: seq<Outcome>, startedAt: Timestamp, k: nat)
    requires |outcomes| == |phones| && k <= |phones|
    ensures var e := StateAfter(req, phones, outcomes, startedAt, k).entry;
      e.progress == (if e.processed.GetOr(0) == 0 then Some(Zero) else Some(Ratio(e.processed.GetOr(0), |phones|)))
    decreases k
  {
    if k > 0 {
      ProgressMatchesProcessed(req, phones, outcomes, startedAt, k - 1);
    }
  }

  /** After `k` iterations the entry's `results` key is the fresh empty list
      while every item so far was invalid, and the local list afterwards. */
  lemma {:induction false} EntryResults(req: Request, phones: seq<string>, outcomes: seq<Outcome>, startedAt: Timestamp, k: nat)
    requires |outcomes| == |phones| && k <= |phones|
    ensures var st := StateAfter(req, phones, outcomes, startedAt, k);
      && (st.linked <==> !AllInvalid(phones, outcomes, k))
      && st.entry.results == (if st.linked then st.acc else [])
    decreases k
  {
    if k > 0 {
      EntryResults(req, phones, outcomes, startedAt, k - 1);
      var prev := StateAfter(req, phones, outcomes, startedAt, k - 1);
      var st := StateAfter(req, phones, outcomes, startedAt, k);
      assert st == Step(req, |phones|, prev, k - 1, phones[k - 1], outcomes[k - 1]);
      if PathOf(phones[k - 1], outcomes[k - 1]) != Invalid {
        assert !AllInvalid(phones, outcomes, k);
      } else {
        assert AllInvalid(phones, outcomes, k) <==> AllInvalid(phones, outcomes, k - 1);
      }
    }
  }

  /** After `k` iterations the counter is zero if no item so far reached the
      lookup, and otherwise one past the last item that did. */
  lemma {:induction false} ProcessedIsLastLookup(req: Request, phones: seq<string>, outcomes: seq<Outcome>, startedAt: Timestamp, k: nat)
    requires |outcomes| == |phones| && k <= |phones|
    ensures var p := StateAfter(req, phones, outcomes, startedAt, k).entry.processed;
      p.Some? && IsLastLookup(phones, outcomes, k, p.value)
    decreases k
  {
    if k > 0 {
      ProcessedIsLastLookup(req, phones, outcomes, startedAt, k - 1);
      var prev := StateAfter(req, phones, outcomes, startedAt, k - 1);
      assert StateAfter(req, phones, outcomes, startedAt, k).entry.processed
        == if LookedUpAt(phones, outcomes, k - 1) then Some(k) else prev.entry.processed;
    }
  }

  /** The counter never goes down from one item to the next or later: a
      lookup seen after `j` items is still behind the counter after `k`. */
  lemma ProcessedMonotone(req: Request, phones: seq<string>, outcomes: seq<Outcome>, startedAt: Timestamp, j: nat, k: nat)
    requires |outcomes| == |phones| && j <= k <= |phones|
    ensures StateAfter(req, phones, outcomes, startedAt, j).entry.processed.GetOr(0)
         <= StateAfter(req, phones, outcomes, startedAt, k).entry.processed.GetOr(0)
  {
    ProcessedIsLastLookup(req, phones, outcomes, startedAt, j);
    ProcessedIsLastLookup(req, phones, outcomes, startedAt, k);
  }

  // ---------------------------------------------------------------------
  // Properties of a whole run

  /** Positions of the phones reported found. */
  function FoundIndices(phones: seq<string>, outcomes: seq<Outcome>): set<nat>
    requires |outcomes| == |phones|
  {
    set k: nat | k < |phones| && FoundAt(phones, outcomes, k)
  }

  /** The completed entry and the snapshots of a run, in terms of the loop. */
  lemma RunUnfolds(clients: set<string>, registry: Registry, req: Request, phones: seq<string>,
                   outcomes: seq<Outcome>, startedAt: Timestamp, completedAt: Timestamp)
    requires |outcomes| == |phones|
    requires req.account in clients
    ensures var out := SearchTask(clients, registry, req, phones, outcomes, startedAt, completedAt);
      && out.registry[req.taskId] == Complete(StateAfter(req, phones, outcomes, startedAt, |phones|), completedAt)
      && out.snapshots == Snapshots(req, phones, outcomes, startedAt)
  {
  }

  /** Counting the found records of a run's results is counting the
      phones whose lookup returned an entity. */
  lemma FoundCountOfAligned(req: Request, phones: seq<string>, outcomes: seq<Outcome>, results: seq<SearchResult>)
    requires |outcomes| == |phones| && |results| == |phones|
    requires forall j :: 0 <= j < |phones| ==> results[j] == ItemResult(req.account, req.fields, phones[j], outcomes[j])
    ensures CountFound(results) == |FoundIndices(phones, outcomes)|
  {
    CountFoundIsCardinality(results);
    assert FoundPositions(results) == FoundIndices(phones, outcomes);
  }

  /** On completion the entry holds exactly one result per input phone, in
      input order, `total_found` counts the phones whose lookup resolved, and
      the keys written at start are still there. */
  lemma CompletedEntry(clients: set<string>, registry: Registry, req: Request, phones: seq<string>,
                       outcomes: seq<Outcome>, startedAt: Timestamp, completedAt: Timestamp)
    requires |outcomes| == |phones|
    requires req.account in clients
    ensures var e := SearchTask(clients, registry, req, phones, outcomes, startedAt, completedAt).registry[req.taskId];
      && e.status == Completed
      && |e.results| == |phones|
      && (forall k :: 0 <= k < |phones| ==> e.results[k].phone == phones[k])
      && (forall k :: 0 <= k < |phones| ==> e.results[k] == ItemResult(req.account, req.fields, phones[k], outcomes[k]))
      && e.totalFound == Some(|FoundIndices(phones, outcomes)|)
      && e.total == Some(|phones|) && e.startedAt == Some(startedAt) && e.completedAt == Some(completedAt)
      && e.processed.Some? && IsLastLookup(phones, outcomes, |phones|, e.processed.value)
      && e.progress == (if e.processed.value == 0 then Some(Zero) else Some(Ratio(e.processed.value, |phones|)))
      && e.error == None
  {
    var n := |phones|;
    RunUnfolds(clients, registry, req, phones, outcomes, startedAt, completedAt);
    ResultsAligned(req, phones, outcomes, startedAt, n);
    EntryKept(req, phones, outcomes, startedAt, n);
    ProcessedIsLastLookup(req, phones, outcomes, startedAt, n);
    ProgressMatchesProcessed(req, phones, outcomes, startedAt, n);
    FoundCountOfAligned(req, phones, outcomes, StateAfter(req, phones, outcomes, startedAt, n).acc);
  }

  /** Each snapshot is still processing with `total` set, and its counter
      is at most the number of items seen and at most the final counter. */
  lemma SnapshotsBoundedByFinal(req: Request, phones: seq<string>, outcomes: seq<Outcome>, startedAt: Timestamp)
    requires |outcomes| == |phones|
    ensures var s := Snapshots(req, phones, outcomes, startedAt);
      var last := StateAfter(req, phones, outcomes, startedAt, |phones|).entry.processed.GetOr(0);
      forall k :: 0 <= k < |s| ==>
        && s[k].status == Processing && s[k].total == Some(|phones|)
        && s[k].processed.Some? && s[k].processed.value <= k + 1 && s[k].processed.value <= last
  {
    var s := Snapshots(req, phones, outcomes, startedAt);
    forall k | 0 <= k < |s|
      ensures var e := s[k];
        && e.status == Processing && e.total == Some(|phones|)
        && e.processed.Some? && e.processed.value <= k + 1
        && e.processed.value <= StateAfter(req, phones, outcomes, startedAt, |phones|).entry.processed.GetOr(0)
    {
      assert s[k] == StateAfter(req, phones, outcomes, startedAt, k + 1).entry;
      EntryKept(req, phones, outcomes, startedAt, k + 1);
      ProcessedMonotone(req, phones, outcomes, startedAt, k + 1, |phones|);
    }
  }

  /** Along the snapshots the counter never decreases (ProcessedMonotone,
      read at every pair of snapshot positions). */
  lemma SnapshotsOrdered(req: Request, phones: seq<string>, outcomes: seq<Outcome>, startedAt: Timestamp)
    requires |outcomes| == |phones|
    ensures var s := Snapshots(req, phones, outcomes, startedAt);
      forall j, k :: 0 <= j <= k < |s| ==> s[j].processed.GetOr(0) <= s[k].processed.GetOr(0)
  {
    var s := Snapshots(req, phones, outcomes, startedAt);
    forall j, k | 0 <= j <= k < |s|
      ensures s[j].processed.GetOr(0) <= s[k].processed.GetOr(0)
    {
      assert s[j] == StateAfter(req, phones, outcomes, startedAt, j + 1).entry;
      assert s[k] == StateAfter(req, phones, outcomes, startedAt, k + 1).entry;
      ProcessedMonotone(req, phones, outcomes, startedAt, j + 1, k + 1);
    }
  }

  /** Restates SnapshotsBoundedByFinal for a whole run. The entry after
      each item of the run is still processing with `total` set to the number of phones, and its counter
      never passes the number of items seen nor the completed entry's
      counter, which is at most `total`. */
  lemma SnapshotsBounded(clients: set<string>, registry: Registry, req: Request, phones: seq<string>,
                         outcomes: seq<Outcome>, startedAt: Timestamp, completedAt: Timestamp)
    requires |outcomes| == |phones|
    requires req.account in clients
    ensures var out := SearchTask(clients, registry, req, phones, outcomes, startedAt, completedAt);
      forall k :: 0 <= k < |out.snapshots| ==>
        && out.snapshots[k].status == Processing && out.snapshots[k].total == Some(|phones|)
        && out.snapshots[k].processed.Some? && out.snapshots[k].processed.value <= k + 1
        && out.snapshots[k].processed.value <= out.registry[req.taskId].processed.GetOr(0) <= |phones|
  {
    RunUnfolds(clients, registry, req, phones, outcomes, startedAt, completedAt);
    EntryKept(req, phones, outcomes, startedAt, |phones|);
    SnapshotsBoundedByFinal(req, phones, outcomes, startedAt);
  }

  /** Restates SnapshotsOrdered for a whole run: the counter in the entries
      after each item never decreases during the run. */
  lemma SnapshotsMonotone(clients: set<string>, registry: Registry, req: Request, phones: seq<string>,
                          outcomes: seq<Outcome>, startedAt: Timestamp, completedAt: Timestamp)
    requires |outcomes| == |phones|
    requires req.account in clients
    ensures var out := SearchTask(clients, registry, req, phones, outcomes, startedAt, completedAt);
      forall j, k :: 0 <= j <= k < |out.snapshots| ==>
        out.snapshots[j].processed.GetOr(0) <= out.snapshots[k].processed.GetOr(0)
  {
    RunUnfolds(clients, registry, req, phones, outcomes, startedAt, completedAt);
    SnapshotsOrdered(req, phones, outcomes, startedAt);
  }

  /** Only the found / not-found branch moves the counter: between two
      consecutive snapshots it changes exactly when that item was looked up,
      and then to the item's position plus one. */
  lemma ProcessedAdvancesOnlyOnLookup(clients: set<string>, registry: Registry, req: Request, phones: seq<string>,
                                      outcomes: seq<Outcome>, startedAt: Timestamp, completedAt: Timestamp, k: nat)
    requires |outcomes| == |phones|
    requires req.account in clients
    requires k < |phones|
    ensures var out := SearchTask(clients, registry, req, phones, outcomes, startedAt, completedAt);
      var before := if k == 0 then Some(0) else out.snapshots[k - 1].processed;
      out.snapshots[k].processed == (if LookedUpAt(phones, outcomes, k) then Some(k + 1) else before)
  {
    RunUnfolds(clients, registry, req, phones, outcomes, startedAt, completedAt);
    if k == 0 {
      assert StateAfter(req, phones, outcomes, startedAt, 0).entry.processed == Some(0);
    }
  }

  /** The final webhook carries the completed entry's count and results. */
  lemma WebhookMatchesEntry(clients: set<string>, registry: Registry, req: Request, phones: seq<string>,
                            outcomes: seq<Outcome>, startedAt: Timestamp, completedAt: Timestamp)
    requires |outcomes| == |phones|
    requires req.account in clients && Truthy(req.webhookUrl)
    ensures var out := SearchTask(clients, registry, req, phones, outcomes, startedAt, completedAt);
      && out.webhook.Some?
      && out.webhook.value.taskId == req.taskId
      && out.webhook.value.accountUsed == req.account
      && out.webhook.value.totalPhones == |phones|
      && Some(out.webhook.value.totalFound) == out.registry[req.taskId].totalFound
      && out.webhook.value.results == out.registry[req.taskId].results
  {
  }

  /** A flood wait on an item is recorded, not retried: the item gets the
      wait message and the next item is still processed. */
  lemma FloodWaitIsRecordedNotRetried(clients: set<string>, registry: Registry, req: Request, phones: seq<string>,
                                      outcomes: seq<Outcome>, startedAt: Timestamp, completedAt: Timestamp, k: nat)
    requires |outcomes| == |phones|
    requires req.account in clients
    requires k < |phones| && !NoDigit(phones[k]) && outcomes[k].FloodWait?
    ensures var e := SearchTask(clients, registry, req, phones, outcomes, startedAt, completedAt).registry[req.taskId];
      && |e.results| == |phones|
      && !e.results[k].found
      && e.results[k].error == Some(FloodWaitError(outcomes[k].seconds))
      && (k + 1 < |phones| ==> e.results[k + 1] == ItemResult(req.account, req.fields, phones[k + 1], outcomes[k + 1]))
  {
    CompletedEntry(clients, registry, req, phones, outcomes, startedAt, completedAt);
  }
}
