# Batch phone lookup of the Telegram multi-account gateway, in Dafny

This project models the batch phone-lookup task of the gateway in `telegram_bot.py`. The background task is `search_contacts_by_phones_task`. It walks an ordered list of phone strings with one logged-in account, and for each phone it:

- cleans the phone down to its digits;
- asks Telegram for the entity behind the number;
- appends one `SearchResult` record;
- updates the task's entry in the in-memory registry `SEARCH_TASKS`.

When the list is exhausted, the entry is marked `completed` with a `total_found` count, and a final webhook payload is sent if a webhook URL was given. The two read-only handlers `get_search_status` and `get_search_results` project a registry entry into a response.

The external lookup is replaced by an abstract outcome per phone (`Lookup.Outcome`). The outcome is one of:

- the entity was returned;
- `ValueError`, meaning not found;
- `FloodWaitError` with its wait in seconds;
- any other exception with its message.

With the lookup abstracted, the task becomes a pure fold over the phones paired with their outcomes.

Modules, one per concept:

- `Basics` (basics.dfy): `Option`, `Result`, and `HttpError`.
- `Phone` (phone.dfy): digit cleaning. It has a recursive reference definition `Digits` and the single-pass loop `CleanPhone`.
- `Decimal` (decimal.dfy): the decimal text of a wait time, with a parser that reads it back.
- `Lookup` (lookup.dfy): contacts, outcomes, the `SearchResult` record, and the result built for one phone.
- `Tasks` (tasks.dfy): the registry entry and the `total_found` count.
- `Engine` (engine.dfy): the loop step, the fold, the whole run, and its invariants.
- `Queries` (queries.dfy): the status and results handlers, plus what they return after a run.
- `Scenarios` (scenarios.dfy): two concrete runs that show how the `processed` counter behaves.

Registry entries are Python dicts whose keys depend on which code path wrote them. So every key that is not always present is an `Option` in `Tasks.Task`. The status handler's `.get(key, default)` becomes `GetOr`.

One detail of the source is modelled on purpose. The entry's `results` key starts out as a fresh empty list. The first item that is looked up, flood-waited or failed assigns the loop's own `results` list to that key. From then on, every append is visible through the registry, including the append for an invalid phone on the `continue` path. Before that point, invalid phones are invisible in the entry. `Engine.LoopState.linked` records whether that assignment has happened.

How the code behaves, in a few points the model makes explicit:

- **Phone cleaning.** The phone is reduced to its digits; there is no other rewriting. A phone with no digits gets the record `"Invalid phone number"` and is never looked up.
- **Notifications.** The task sends one webhook at most, on completion. A missing account sends none.
- **Counters.** The entry carries `processed`, `progress`, `total` and, at completion, `total_found`; there is no per-outcome counter.
- **Meaning of `processed`.** It is not the number of results. It is set to the item's position plus one, and only on the found or not-found branch (`Engine.ProcessedIsLastLookup`). So it lags behind when the last items hit a flood wait or an exception (`Scenarios.FloodWaitLeavesProcessedBehind`). It also counts invalid phones that come before a looked-up one (`Scenarios.InvalidBeforeFoundIsCounted`).
- **Lookup.** Each phone is resolved by one `get_entity` call on the cleaned number.

## Model

| member | source | states |
|---|---|---|
| Phone.Digits | telegram_bot.py:133-134 | the cleaned phone has only digits, is no longer than the input, and is empty exactly when the input has no digit |
| Phone.CleanPhone | telegram_bot.py:133-134 | the filtering loop over the characters yields the digits of the phone in their original order, and yields nothing exactly when the phone has no digit |
| Phone.DigitsAppend | telegram_bot.py:133 | cleaning a concatenation cleans each part independently and joins the results |
| Phone.DigitsSingle | telegram_bot.py:133 | a single character survives cleaning exactly when it is a digit |
| Phone.DigitsOfDigitString | telegram_bot.py:133 | a phone made only of digits is left unchanged by cleaning |
| Phone.DigitsIdempotent | telegram_bot.py:133 | cleaning an already cleaned phone changes nothing |
| Phone.DigitsIsSubsequence | telegram_bot.py:133 | the cleaned phone is a subsequence of the raw input, so the digits keep their order |
| Phone.DigitKept | telegram_bot.py:133 | every digit of the input appears in the cleaned phone |
| Decimal.NatToString | telegram_bot.py:188-192 | the wait time is written as digits with no leading zero |
| Decimal.NatToStringRoundTrip | telegram_bot.py:188-192 | the wait time can be read back from the text of the flood-wait message |
| Decimal.NatToStringInjective | telegram_bot.py:188-192 | different wait times are written differently |
| Lookup.FloodWaitErrorInjective | telegram_bot.py:186-194 | the flood-wait error message determines the wait in seconds |
| Lookup.PathOf | telegram_bot.py:133-208 | a phone with no digits takes the invalid branch; otherwise a returned entity or a ValueError takes the lookup branch, and a flood wait or another exception takes its own branch |
| Lookup.PhotoFlag | telegram_bot.py:148-163 | photo is None unless photos were requested; it is true only if the contact has a photo and the photo query listed at least one, so a failed query gives false |
| Lookup.ItemResult | telegram_bot.py:131-208 | one record per phone on every branch, with the original phone and the account. A phone with no digits gives "Invalid phone number" and no lookup. found holds exactly when the lookup returned an entity; then the id is set, username only with include_username, the names only with include_name, and photo as PhotoFlag gives it. Every miss has no identity fields. ValueError gives no error, a flood wait gives "Flood wait: N seconds", and another exception gives its message |
| Tasks.CountFoundIsCardinality | telegram_bot.py:215 | total_found equals the number of found records and never exceeds the number of records |
| Engine.Step | telegram_bot.py:130-208 | each iteration appends exactly one record. Only the found/not-found branch sets processed, to position plus one, and the progress ratio with it. The results key shows the local list once any branch other than the invalid one has assigned it. No other key of the entry changes |
| Engine.SearchTask | telegram_bot.py:100-231 | only the run's own task id is written, created or overwritten, and every other entry is unchanged. An unknown account gives the error entry, no snapshots and no webhook. Otherwise the entry is completed and one snapshot is taken per phone. A webhook payload exists exactly when the account is known and webhook_url is non-empty |
| Engine.ResultsAligned | telegram_bot.py:130-209 | after k iterations there are k records, and record j is the one built for phone j |
| Engine.EntryKept | telegram_bot.py:119-208 | while processing, the entry keeps the status, total and started_at written at start, and processed is set and at most the number of items seen |
| Engine.ProgressMatchesProcessed | telegram_bot.py:121-180 | progress is 0 until processed is first set and is processed/total from then on |
| Engine.EntryResults | telegram_bot.py:124-208 | the entry's results stay the empty list written at start while every item so far was invalid, and are the full local list of records from the first other item on |
| Engine.ProcessedIsLastLookup | telegram_bot.py:122-179 | processed is 0 if no item so far reached the lookup, and otherwise one past the last item that did |
| Engine.ProcessedMonotone | telegram_bot.py:179 | processed never decreases from one iteration to a later one |
| Engine.FoundCountOfAligned | telegram_bot.py:215 | for one record per phone, counting found records equals counting the phones whose lookup returned an entity |
| Engine.CompletedEntry | telegram_bot.py:211-216 | at completion: status completed, one result per input phone in input order, total_found the number of phones whose lookup returned an entity, total, processed, started_at and progress (0 or processed/total) kept from earlier writes |
| Engine.SnapshotsBoundedByFinal | telegram_bot.py:122-179 | after each item the entry is still processing with total set, and processed is at most the number of items seen and at most the final counter |
| Engine.SnapshotsOrdered | telegram_bot.py:179 | processed never decreases along the entries seen after each item |
| Engine.SnapshotsBounded | telegram_bot.py:122-179 | the entry after each item is processing with total = number of phones; processed never exceeds the number of items seen nor the completed value, which is at most total |
| Engine.SnapshotsMonotone | telegram_bot.py:179 | processed never decreases across the entries after each item of the run |
| Engine.ProcessedAdvancesOnlyOnLookup | telegram_bot.py:134-208 | between consecutive snapshots processed changes exactly when the item took the found/not-found branch, and then it becomes the item's position plus one. Invalid, flood-wait and error items leave it unchanged |
| Engine.WebhookMatchesEntry | telegram_bot.py:219-229 | with a non-empty webhook URL, the one final payload carries the task id, the account, the number of phones, and the completed entry's total_found and results |
| Engine.FloodWaitIsRecordedNotRetried | telegram_bot.py:186-197 | a flood-waited phone gets one not-found record with the wait message and is not retried; the next phone is still processed normally |
| Queries.GetSearchStatus | telegram_bot.py:366-383 | an unknown id gives 404. Otherwise the response shows the entry's status, with missing counters and progress defaulting to 0, started_at and completed_at passed through, and results only when the status is completed (otherwise an empty list) |
| Queries.GetSearchResults | telegram_bot.py:385-401 | answers exactly for a known, completed task, with its results. An unknown id gives 404 and a task that is not completed gives 400 |
| Queries.ResultsAgreeWithStatus | telegram_bot.py:366-401 | the results handler answers exactly when the status handler reports completed, and then with the same results, processed and total_found |
| Queries.NoResultsBeforeCompletion | telegram_bot.py:382-393 | a task that is not completed exposes no results through either handler |
| Queries.QueryAfterRun | telegram_bot.py:100-401 | after a run with a known account, both handlers return one result per phone in input order and the found count, and total is the number of phones |
| Queries.QueryAfterMissingAccount | telegram_bot.py:110-401 | after a run with an unknown account, the status handler reports error with every counter at its default and no results, and the results handler answers 400 |
| Scenarios.FloodWaitLeavesProcessedBehind | telegram_bot.py:179-197 | a one-phone batch whose phone hits a flood wait completes with processed 0 of total 1 |
| Scenarios.InvalidBeforeFoundIsCounted | telegram_bot.py:134-179 | a phone with no digits before a found phone still counts towards processed, which becomes 2 |

## Left out

- **Telegram calls.** `get_entity`, `get_profile_photos` and the client handles are network calls. They are replaced by the per-phone `Outcome` and `Contact.photos`. The sequence of outcomes must be as long as the phone list, and the outcome of a phone with no digits is ignored.
- **Sleeps.** The 0.5-second throttle and the flood-wait sleep (`asyncio.sleep`) only affect timing and are not modelled.
- **Timestamps.** `time.time()` for `started_at` and `completed_at` is a clock. The two values are parameters of the run.
- **progress.** The float `(i+1)/len(phones)*100` is kept as the exact ratio `Ratio(i+1, len(phones))`, and the initial literal 0 is `Zero`.
- **Webhook delivery.** The final POST is network I/O whose errors are printed and swallowed. The model only produces the payload that would be posted. The webhook of the incoming-message handler is not modelled.
- **Unicode digits.** `str.isdigit` also accepts non-ASCII digits. The model keeps to ASCII '0' to '9'.
- **Start handler.** The `search_by_phone` handler and its task-id generation are not modelled. The generated id depends on the wall clock and Python's `hash`.
- **Concurrency.** Concurrent runs that share `SEARCH_TASKS` are not modelled, including a second run that overwrites the same id while the first is still running. The model covers a single run. The snapshots are the entries after each item.
- **Other handlers.** Account add/remove/list, the authorisation handlers, send-message, export-members and the app lifespan are membership checks and projections around network calls. They are not modelled.
- **Registry writes by the handlers.** The two query handlers are pure functions of the registry, so they cannot change it. No lemma states this separately.
- **Constant status key.** The final webhook payload and the results response both also carry the constant `"status": "completed"`; `Engine.CompletionPayload` and `Queries.ResultsView` leave that fixed key out.
- **Entry before the first item.** The snapshots are the entries after each item; the start entry seen before the first item completes is `Engine.StartEntry` and is not part of that sequence.
- **Status text.** The status query's `"unknown"` default is unreachable because every entry is written with a status. Status is an enumeration.
