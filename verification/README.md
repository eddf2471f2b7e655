# Verification of the webhook delivery service

A Dafny model of the webhook delivery service and proofs about it. `dafny verify dfyconfig.toml`
checks everything.

The centre is one step system (`Protocol.dfy`): API requests, endpoint edits, the broker's unacked
messages, the executions working on them, the committed tables and the row locks. One step is one
atomic action of one participant, so a run is any interleaving of ingest, fan-out commit, fan-out
dispatch, claim (`FOR UPDATE SKIP LOCKED`), skip, POST, answer, retry dispatch (before the commit),
commit, late ack, crash with rollback and redelivery, broker duplication, recovery scan, endpoint
update or delete, and clock tick. Theorems quantify over all runs. The retry delays and the recovery
batch size are parameters.

## How it is laid out

| files | what they hold |
|---|---|
| `Types`, `Rules` | rows, messages, answers; what the code does to one delivery row |
| `Lifecycle` | the history of one row, which histories are legal, and what a legal history guarantees |
| `Protocol`, `Invariant`, `Attempts` | the step system, what every step keeps, attempts in all runs |
| `Coverage`, `StalledCommit`, `Recovery`, `Dispatch`, `Stranded`, `Healing` | when a delivery keeps a message, when and how soon recovery finds it, when it is lost, what recovery brings to an end |
| `TwoDeliveries`, `TwoScans`, `LateReturn` | concrete runs with two deliveries, for the theorems about recovery |
| `Ingest`, `AtMostOnce`, `Ownership`, `FreshReads`, `FanOutReads`, `SoftDelete` | idempotent ingestion, end-to-end at most once, tenants, what fan-outs and executions read, edited and deleted endpoints |
| `Totals`, `FiniteWork`, `BoundedWork`, `Sorting`, `Rest`, `RunToRest` | bounded work, progress, the state in which a run comes to rest, and runs that reach it |
| `Receiver`, `ClosedLoop`, `SettledRun` | the flaky test receiver, the service against it, and runs that end as it was configured |
| `Paging`, `LogOrder`, `LiveLog`, `Digits`, `Base64`, `Cursor`, `DeliveryLog` | the keyset-paged delivery log, its cursors, the client that walks it |
| `Store`, `DeliveryService`, `EventService`, `EndpointService` | the service functions as imperative code on tables, sessions and a queue |
| `ServiceRuns`, `ApiRuns` | an uninterrupted service call or API request is a run of the step system |

## What is assumed about the environment

- One monotone clock, shared by workers, broker and database.
- The claiming query is atomic on the latest committed row. A lock lasts until commit or rollback.
- A message that is not acked is never lost. A message with an ETA is not started before it.
- A worker is identified by the message it executes; a smaller pool only removes interleavings.
- A dying worker rolls its transaction back, and its message is delivered again.
- Events, endpoints and tenants are never physically deleted: the application has no such operation.
- Ids are fresh when they are drawn. A uniqueness check waits for an uncommitted rival insert.

## What the proofs found

- Attempts. The service's own `README.md:110` says a delivery is exhausted after three attempts. The code
  (`app/services/delivery.py:37`, `290-291`) makes `len(delays) + 1`, that is four; the model follows
  the code.
- A waiting delivery can lose its last message. The retry message is dispatched before the attempt
  commits; if the commit comes after the retry is due, the retry can meet the row lock, skip and be
  acked. `StalledCommit.RetryLost` builds such a run for any such delay; `StalledCommit.NeverForgottenIff`
  gives the exact condition: it cannot happen if and only if retries are committed sooner after the
  recorded failure than every retry delay. `Coverage.ForgottenOnlyUntilRecovery` shows that recovery
  sees every delivery to which it does happen.
- Recovery can let a due row be overtaken, again by a late commit, but only of a first failure:
  `Recovery.OvertakesIff` (one step) and `Recovery.NeverOvertakenIff` (all runs) are exact, and
  `Recovery.Overtaking` builds a run in which a due row is overtaken.
- Late commits can also make a due row wait longer for recovery: a row picked by one scan can be back
  at or before it at the next, when its next failure commits after its own retry is due.
  `Dispatch.DispatchedInAnyRun` counts these rows in and holds in every run; `LateReturn.PassedOverTwice`
  is a run in which the bound without them fails; `Dispatch.DispatchedWithin` is the case of prompt
  commits, in which there are none.
- Recovery heals everything but one thing. From any reachable state, however late its commits,
  recovery requests are all it takes to bring every delivery to an end except those whose fan-out died
  before announcing them: `Healing.RecoveryHeals`.
- An endpoint edit committed between an execution's reads and its POST does not reach that POST, which
  still goes to the old URL; one committed before the reads always does: `FreshReads.PostIsLastReading`.
- A fan-out that dies between its commit and its last dispatch leaves rows that nothing ever touches
  again. `Stranded.GapStrands` builds one, `Stranded.StrandedForever` shows that it is for ever, and
  `Stranded.StrandsIff` (one step) and `Stranded.LostIff` (all runs) say exactly which rows are lost.

## Model

| member | source | states |
|---|---|---|
| Invariant.BaseKept | app/services/delivery.py:162-235 | every step of every participant keeps: a lock belongs to exactly one execution working on that row, an open transaction works on the committed row, each row's history is a legal life ending in that row |
| Attempts.HistoryIsLegal | app/services/delivery.py:162-313 | in every reachable state each row's history is a legal life that ends in the committed row and is held by whoever locks the row |
| Attempts.OneHolder | app/queries/delivery.py:121-135 | two executions never work on one row at the same time |
| Attempts.PostAccounting | app/services/delivery.py:226-248 | POSTs made for a row = committed attempts + POSTs rolled back + the one in an open transaction; at most `len(delays)+1` plus those rolled back |
| Attempts.RowShapes | app/services/delivery.py:272-313 | a stored row is `success` exactly if its code is 200 to 299; which attempt counts and retry times each status can have; the recovery query selects exactly the pending rows already attempted whose retry time has come, the claim those and the never attempted ones |
| Attempts.AnswerRecorded | app/services/delivery.py:272-313 | in every run, the commit that ends an answered attempt stores the answer's code and `success` exactly for 200 to 299; anything else is a retry after the attempt's delay from the recorded time, or `exhausted` after attempt `len(delays)+1` |
| Attempts.AttemptsSerialised | app/queries/delivery.py:115-135 | claim-to-commit intervals on a row never overlap, nothing follows a terminal commit, a committed attempt is never posted again |
| Attempts.AttemptsNumbered | app/services/delivery.py:248 | committed attempt numbers are 1, 2, 3, ... in commit order; only giving up on a deleted endpoint commits without a new number, and that is last |
| Attempts.BackoffSpacing | app/services/delivery.py:290-299 | a claim after k failures comes at least `delays[k-1]` after the last recorded failure and at least the first k delays after the first, whatever messages arrive |
| Lifecycle.WinsOnce | app/services/delivery.py:274-313 | without a crash at most one POST of a row is answered 2xx, and then the row ends in `success` |
| Lifecycle.WinsBounded | app/services/delivery.py:226-235 | with crashes: the POSTs answered 2xx are at most those rolled back, plus one if the row has succeeded or the open attempt has been accepted |
| Lifecycle.Serialised | app/queries/delivery.py:121-132 | between two claims in one history the first claimer has let go |
| Lifecycle.NothingAfterTerminal | app/queries/delivery.py:126 | a committed terminal status is the last thing in a history |
| Lifecycle.NoRepeatAfterCommit | app/services/delivery.py:235 | a POST after the commit of attempt k is of a later attempt |
| Lifecycle.FailsWereHeard | app/services/delivery.py:289-294 | the failure times the backoff counts from are times at which a refusal was heard |
| Lifecycle.AnswerDecides | app/services/delivery.py:272-313 | in any legal history: what the commit after an answer writes, field by field |
| Lifecycle.GivenUp | app/services/delivery.py:200-210 | a commit without a POST since the claim changes the status to `failed` and nothing else |
| Coverage.NeverForgotten | app/services/delivery.py:289-299 | with prompt commits every announced pending row has an outstanding message that will find it claimable: any message if the row is due or NULL-timed, else one with an ETA no earlier than `next_retry_at` |
| Coverage.AwakeIsTried | app/queries/delivery.py:121-132 | what such a message is good for: its execution holds the row, or will find it claimable whenever it is started |
| Coverage.ForgottenOnlyUntilRecovery | app/queries/delivery.py:145-154 | with no assumption on commits, an announced pending row without such a message has a retry time, and recovery selects it from that time on; NULL-timed rows always keep a message |
| StalledCommit.RetryLost | app/services/delivery.py:295-299 | the concrete run in which a retry meets the lock of a late commit and the delivery is left without a message |
| StalledCommit.NeverForgottenIff | app/services/delivery.py:226-235 | no announced pending row is ever without its message, over all runs whose retries commit within `lag`, if and only if `lag` is below every delay |
| Stranded.StrandsIff | app/services/delivery.py:156-159 | exactly which step leaves which committed row without anyone to announce it: the death of its fan-out between commit and last dispatch, for each row still to be announced |
| Stranded.LostIff | app/services/delivery.py:156-159 | over whole runs: a row is without an announcer if and only if its fan-out died before announcing it |
| Stranded.StrandedForever | app/queries/delivery.py:147-151 | such a row stays untouched and pending in every later state: no POST, no message, no recovery |
| Stranded.GapStrands | app/services/delivery.py:156-159 | a reachable state with such a row |
| Recovery.OvertakesIff | app/queries/delivery.py:145-154 | a step puts a new row at or before an already due row in recovery order if and only if it commits a first failure so late that its retry is already due |
| Recovery.NeverOvertakenIff | app/services/delivery.py:293-294 | over all runs the rows at or before a due row only shrink, if and only if first failures commit within less than the first delay |
| Recovery.Overtaking | app/services/delivery.py:289-299 | the run in which a due row is overtaken: two deliveries fail together, one commits at once, the other when both are due |
| Dispatch.DispatchedInAnyRun | app/services/delivery.py:332-359 | in any run in which each picked batch is processed before the next scan: a due row is picked by one of the next n scans, or attempted or ended before it, if the rows at or before it and the rows committed late between those scans are together at most n batches |
| Dispatch.DispatchedWithin | app/services/delivery.py:332-359 | its case of prompt commits, in which no row is committed late: n batches of rows at or before the due row take at most n scans |
| LateReturn.PassedOverTwice | app/services/delivery.py:289-299 | a run with a late second failure in which the same row is picked twice and a due row with two rows at or before it is passed over by two scans of one row each |
| TwoScans.WaitsForTheSecondScan | app/services/delivery.py:332-359 | a run in which that bound is met: with a batch of one, a due row is passed over by one scan and picked by the next |
| Healing.PendingAtRest | app/queries/delivery.py:145-154 | where any run has come to rest, a pending row has no retry time if and only if it is without an announcer; any other is selected by recovery from its retry time on |
| Healing.RecoveryHeals | app/services/delivery.py:332-359 | any run can be continued, with nothing new but recovery requests, to an empty queue, where exactly the rows left without an announcer at the start are still pending |
| Healing.HealsIff | app/services/delivery.py:332-359 | some continuation of any kind ends with no pending row if and only if no row is without an announcer |
| Ingest.RefinesAtomicStore | app/services/event.py:17-32 | the commit of a request is one operation of an atomic store with one event per key, with the answer the request gives; no other step changes the store |
| Ingest.IngestLinearizable | app/queries/event.py:58-120 | each event was created by exactly one request; requests of one tenant with the same non-null key agree on the event and only one created it; null keys always create; conflict-but-not-found never happens |
| AtMostOnce.OneDeliveryPerKey | app/services/event.py:17-32 | unless a fan-out dies in its window or its message is duplicated, a tenant, non-null key and endpoint have at most one delivery, whatever else dies or is duplicated |
| AtMostOnce.PostsAndWins | app/services/delivery.py:226-248 | in every run: at most `len(delays)+1` POSTs of a row and one 2xx, plus one of each per POST rolled back |
| AtMostOnce.EndToEndAtMostOnce | app/services/event.py:17-47 | both together for a tenant, non-null key and endpoint; if nothing died working on the delivery, at most `len(delays)+1` POSTs and one 2xx |
| Ownership.TenantsKeptApart | app/services/delivery.py:189-234 | a delivery's tenant owns its event and its endpoint, and every POST in its history carried that event, to a URL that endpoint had, signed with that tenant's secret (which URL: next two rows); a row is `failed` only if its endpoint was deleted |
| FreshReads.PostIsLastReading | app/services/delivery.py:189-234 | every POST of every run is the request of its execution's last reads: the URL that the endpoint, then active, had at that moment, the event's body and the tenant's secret; and it is what the history records |
| FreshReads.PostFollowsEdit | app/services/endpoint.py:61-95 | if the last edit of the endpoint committed before those reads set its URL, the POST goes to that URL |
| FreshReads.ReadingDecides | app/services/delivery.py:189-224 | an execution goes on to its POST exactly if the endpoint is there, active and the tenant's, the event is the tenant's and the tenant is there; else it stages the row as `failed`, otherwise unchanged |
| FanOutReads.PlanSelects | app/queries/delivery.py:84-97 | in every run a fan-out selects, of all endpoints of that moment, exactly the active ones of the event's tenant that list the event's type, each once |
| FanOutReads.RowsAreSelected | app/services/delivery.py:118-154 | and the rows it commits are fresh deliveries of its event, one for each endpoint so selected at its reading; every other row is as before |
| FanOutReads.PlanFollowsEdit | app/services/endpoint.py:77-78 | if the last edit of an endpoint committed before that reading set its event types, the endpoint, if active and the tenant's own, is selected exactly for these |
| FanOutReads.EditChanges | app/services/endpoint.py:61-117 | the commit of an edit changes only the fields given, of its endpoint only; a delete only its active flag |
| Ownership.OwnersStay | app/services/endpoint.py:61-117 | in every run tenants and events never change, endpoints keep their tenant, and deleted endpoints stay deleted |
| SoftDelete.DeletedForever | app/services/endpoint.py:98-112 | once deleted, an endpoint is never active again and no later fan-out read selects it, whatever edits were open |
| SoftDelete.DeletedGetsNothing | app/services/delivery.py:189-210 | a row whose endpoint is deleted before an execution reads it gets no further POST, and can only become `failed` |
| SoftDelete.DeletedSendsNoRetry | app/services/delivery.py:289-299 | and no retry message is sent for it |
| FiniteWork.ActFalls | app/services/delivery.py:118-235 | every action of a worker short of dying uses up a stock computed from queue and rows |
| BoundedWork.StepBounded | app/services/delivery.py:118-359 | any step of any participant adds at most its charge to the stock, and a worker action uses some up |
| BoundedWork.WorkBounded | app/services/delivery.py:118-359 | in every run the workers take at most the stock at the start plus what announcements, recovery requests, duplicates, crashes and new endpoints bring in |
| BoundedWork.QuietWorkBounded | app/services/delivery.py:118-359 | once nothing new comes in any schedule, with any endpoint edits and deletes, takes at most the stock |
| FiniteWork.AttemptsSpent | app/services/delivery.py:289-313 | the attempts all rows still have fall strictly at each committed attempt, grow by `len(delays)+1` per inserted row at a fan-out commit, and change at no other step |
| Rest.AlwaysCanAct | app/queries/delivery.py:132 | no message is ever stuck: its execution can act now, or once its ETA has come, without waiting for a lock, a worker or recovery |
| Rest.ComesToRest | app/services/delivery.py:146-235 | with prompt commits and no fan-out dying in its window: bounded work from any point on, and where nothing can act any more the queue is empty and no row is pending |
| RunToRest.RestIsReached | app/services/delivery.py:118-359 | unless a retry commit is overdue, any such run can be continued, nothing new coming in, by at most the stock of worker actions to an empty queue and no pending row |
| Rest.AlwaysAnnounced | app/services/delivery.py:146-159 | unless a fan-out dies in its window, every row has been announced or its fan-out is still at it |
| Receiver.FailsFirst | test-receiver/main.py:77-118 | told to fail n times, the receiver answers 500 to the first n of any number of interleaved requests and the configured status to all later ones |
| Receiver.RecoversForGood | test-receiver/main.py:99-101 | after the failing streak it behaves as if never told to fail |
| Receiver.HangsForever | test-receiver/main.py:66-75 | in timeout mode every response comes after a minute and the failure count stands still |
| Receiver.WebhookReceiver.ReceiveWebhook | test-receiver/main.py:39-118 | the response and the new settings in each of the handler's cases; the request goes to the front of the log, which keeps 500 entries |
| Receiver.WebhookReceiver.UpdateConfig | test-receiver/main.py:137-148 | only the given settings change; giving a failure count starts a new streak |
| Receiver.WebhookReceiver.ResetConfig | test-receiver/main.py:151-158 | status 200, no delay, no failures, no hang; log kept |
| ClosedLoop.EndsAsConfigured | app/services/delivery.py:274-313 | against a receiver told to fail n times, crashes allowed: never exhausted if n <= len(delays); success comes by attempt n+1 and after n POSTs; without a crash on exactly attempt n+1, else exhausted |
| ClosedLoop.SettlesAsConfigured | test-receiver/main.py:77-118 | where a crash-free run with prompt commits has come to rest, a delivery whose endpoint is not deleted has succeeded on attempt n+1 if n <= len(delays) and is exhausted otherwise |
| SettledRun.SettlesInSomeRun | test-receiver/main.py:77-118 | such a run is built from any reachable state, however late its commits: the receiver's own answers, and recovery requests, take a delivery that has an announcer, no crash behind it and an active endpoint to `success` on attempt n+1 or to `exhausted` |
| SettledRun.SettlesUnaided | app/services/delivery.py:118-313 | with prompt commits and no fan-out dead in its window, without recovery requests |
| SettledRun.EveryConfigurationEnds | test-receiver/main.py:77-118 | from the empty system, for every failure count and every accepting status there is a run that ends so, with that status, or 500, as the stored code |
| ClosedLoop.NeverToASlowReceiver | app/services/delivery.py:265-278 | a receiver that hangs or sleeps past the POST timeout is never recorded as delivered to |
| Sorting.FirstIsScan | app/queries/delivery.py:138-156 | the recovery query's answer: due attempted rows, oldest first, at most the limit, none older left out |
| Sorting.MatchingAreMatched | app/queries/delivery.py:84-97 | exactly the endpoints that are the tenant's, active, and list the event type, each once |
| Paging.NewestFirstIsSorted | app/queries/delivery.py:36-43 | the order of the log: newest first, ids breaking ties, nothing lost or repeated |
| Paging.PageIsPrefix | app/services/delivery.py:57-72 | a page is the first rows of the sorted remainder, and has a next cursor if and only if rows are left |
| Paging.PageFacts | app/queries/delivery.py:28-41 | the next cursor parts the page from exactly the rows left |
| Paging.PagingIsSorting | app/services/delivery.py:48-72 | on a table at rest the pages one after the other are the filtered rows sorted newest first, for every limit >= 1 |
| Paging.NoRowTwice | app/queries/delivery.py:23-41 | while other transactions insert rows and change statuses, no row is returned twice |
| Paging.EveryRowOnce | app/services/delivery.py:56-72 | and a finished walk returns every row selected throughout exactly once; without a status filter, every matching row that existed at the first page |
| LiveLog.RunAges | app/models/delivery.py:11-55 | during any run of the service rows keep their key, tenant, event and endpoint, none is deleted, and a terminal row never changes |
| LiveLog.LiveReading | app/services/delivery.py:48-72 | reading the log of the running service returns every delivery selected at the first page exactly once; with a `pending` filter, every one still pending at the last page |
| Paging.PageLimit | app/services/delivery.py:57-70 | a page holds at most the limit asked for and at most 100 rows, and is full whenever there is a next one |
| LogOrder.SortingDescends | app/queries/delivery.py:36-43 | ORDER BY created_at DESC, id DESC: of two listed rows the first has the later creation time, field by field, or the same time and the larger id |
| LogOrder.NewerIsLater | app/queries/delivery.py:39 | for times a clock can show, that order is the order of one number computed from the seven fields |
| LogOrder.LogDescends | app/services/delivery.py:48-72 | the pages one after the other hold exactly the tenant's rows with the status and the endpoint asked for, newer ones first |
| LogOrder.PageHoldsNewest | app/services/delivery.py:48-72 | a page holds the newest of these rows that are older than the cursor, at most the limit and at most 100, newer ones first; the next cursor is its last row's, and is there exactly if rows are left |
| LogOrder.NextPageIsOlder | app/queries/delivery.py:28-35 | every row of the next page, whatever was written in between, is older than the last row of this one, or as old with a smaller id |
| Base64.EncodeLayout | app/services/delivery.py:115 | the text is groups of four symbols of the URL-safe alphabet, the last one padded (section 5 of RFC 4648) |
| Base64.AlphabetIs | app/services/delivery.py:115 | which character stands for which of the 64 values |
| Base64.GroupSpells | app/services/delivery.py:115 | a group of four symbols is the 24-bit number of its three bytes, most significant symbol first (section 4 of RFC 4648) |
| Base64.DecodeEncode | app/services/delivery.py:98-115 | URL-safe base64 with padding (section 5 of RFC 4648) reads back every sequence of bytes |
| Cursor.IsoLayout | app/services/delivery.py:112 | where every part and separator of the ISO text stands; a six-digit fraction if and only if it is not zero |
| Digits.ShowDigit | app/services/delivery.py:112-113 | the digit at each place of a decimal or hexadecimal numeral, hexadecimal in lower case |
| Cursor.CalendarIs | app/services/delivery.py:100 | the days of the twelve months and the first and last timestamps there are |
| Cursor.UuidLayout | app/services/delivery.py:113 | 32 hexadecimal digits in groups of 8, 4, 4, 4 and 12 (section 4 of RFC 9562) |
| Cursor.IsoReads | app/services/delivery.py:100-112 | every timezone-free microsecond timestamp is read back from its ISO text, fraction left out when zero |
| Cursor.UuidReads | app/services/delivery.py:101-113 | every 128-bit id is read back from its UUID text (section 4 of RFC 9562) |
| Cursor.JsonLayout | app/services/delivery.py:111-115 | the text of a cursor, with the names `created_at` and `id`, in this order and spacing |
| Cursor.CursorHoldsText | app/services/delivery.py:115 | the bytes behind an encoded cursor are the characters of that text |
| Cursor.DecodeDeliveryCursor | app/services/delivery.py:91-107 | no cursor, and nothing else, is the start; a decoded cursor is a valid timestamp and id |
| Cursor.CursorRoundTrip | app/services/delivery.py:91-115 | decoding an encoded cursor returns exactly the row's (created_at, id) |
| Cursor.CursorsDiffer | app/services/delivery.py:110-115 | different rows have different cursors |
| DeliveryLog.OpaqueIsRaw | app/services/delivery.py:48-72 | the page for an opaque cursor is the page for its position, and is never an error |
| DeliveryLog.OpaquePagingIsRaw | app/services/delivery.py:56-72 | a walk by opaque cursors returns the same pages and ends at the same place as one by positions |
| DeliveryLog.CountPage | scripts/load_test.py:80-82 | the inner loop counts each of the page's rows once |
| DeliveryLog.FetchDeliveryStatusCounts | scripts/load_test.py:59-86 | the walk ends and returns, per status, exactly the number of the tenant's rows whose event is in the set |
| DeliveryService.GetPendingDeliveryForUpdate | app/queries/delivery.py:115-135 | the row if it is the tenant's, pending, due or NULL-timed, and not locked; nothing otherwise |
| DeliveryService.PostAndRecordDelivery | app/services/delivery.py:238-313 | field by field for every answer: attempt count, code, `success` exactly for 200 to 299, retry or `exhausted` by the attempt count, retry time, retry message and request |
| DeliveryService.DeliverToEndpointOnce | app/services/delivery.py:162-235 | one execution from claim to commit: table, queue and request afterwards, for every branch |
| DeliveryService.OnlyTheClaimedRow | app/services/delivery.py:175-187 | an execution that does not find its row claimable changes and sends nothing; one that does writes no other row |
| DeliveryService.GoneIsFailed | app/services/delivery.py:200-224 | with the endpoint, the event or the tenant gone the row becomes `failed`, otherwise as it was, and nothing is sent |
| DeliveryService.AnswerIsRecorded | app/services/delivery.py:226-313 | with all three there: the request sent, and the row and the retry message for every answer, field by field |
| DeliveryService.SecondCallWaits | app/queries/delivery.py:126-130 | after one execution another one does nothing if and only if the row is terminal or its retry is not due yet |
| DeliveryService.AddDeliveries | app/services/delivery.py:146-154 | the insert loop: one new row per endpoint, every other row as before |
| DeliveryService.AnnounceDeliveries | app/services/delivery.py:158-159 | the dispatch loop: one message per new row, in order |
| DeliveryService.FanOutEventDeliveries | app/services/delivery.py:118-159 | one new row for each endpoint that is active, the tenant's and lists the event's type, and for no other; every other row as before, one message per new row; nothing if the tenant has no such event |
| DeliveryService.SendStuckDeliveries | app/services/delivery.py:332-359 | one message for each of the oldest pending rows whose retry time has come, at most a batch, no row touched |
| ServiceRuns.DeliverOnceIsRun | app/services/delivery.py:162-235 | an uninterrupted execution is a run of the step system with the same table, queue and request |
| ServiceRuns.FanOutIsRun | app/services/delivery.py:118-159 | an uninterrupted fan-out is a run with the same new rows and messages |
| ServiceRuns.RecoveryIsRun | app/services/delivery.py:332-359 | an uninterrupted recovery is a run with the same messages |
| ApiRuns.CreateIsRun | app/services/endpoint.py:21-48 | an uninterrupted endpoint creation is a run that adds one active endpoint |
| ApiRuns.UpdateIsRun | app/services/endpoint.py:61-95 | an uninterrupted edit is a run that changes the given fields of its endpoint and nothing else |
| ApiRuns.DeleteIsRun | app/services/endpoint.py:98-117 | an uninterrupted delete is a run that makes its endpoint inactive and changes nothing else |
| ApiRuns.OnlyOwnersEdit | app/queries/endpoint.py:41-53 | an edit gets past its read exactly if the endpoint is the asking tenant's and active |
| ApiRuns.InsertWaitsOnlyForRival | app/queries/event.py:58-95 | an event insert can go ahead unless, and only unless, another request has inserted the same key of the same tenant and not committed |
| ApiRuns.NewEventIsRun | app/services/event.py:12-47 | an uninterrupted request with an unused key, or none, is a run that stores its event and queues its fan-out |
| ApiRuns.OldEventIsRun | app/services/event.py:12-47 | one with a used key is a run that answers the existing event and stores and queues nothing |
| EventService.FindEvent | app/queries/event.py:96-115 | finds the tenant's event with the key if and only if there is one |
| EventService.InsertEventIdempotently | app/queries/event.py:17-120 | a new event in the open transaction if the key is free or null, else the existing id and nothing inserted; never the conflict-without-event error |
| EventService.IngestEvent | app/services/event.py:12-47 | one operation of the atomic store, and a fan-out message if and only if the event is new; keys stay unique |
| EventService.IngestTwice | app/models/event.py:14-20 | asking again with the same key returns the same event and changes nothing |
| EndpointService.CreateEndpoint | app/services/endpoint.py:21-48 | a new active endpoint, every other as before |
| EndpointService.UpdateEndpoint | app/services/endpoint.py:61-95 | an active endpoint of the tenant gets the given URL and the given event types and keeps what is not given; any other endpoint gives the not-found error and no change |
| EndpointService.DeleteEndpoint | app/services/endpoint.py:98-117 | the endpoint stays as an inactive row, else the not-found error and no change |
| EndpointService.DeletedIsUnreachable | app/queries/endpoint.py:41-53 | after a delete no tenant can edit the endpoint and no fan-out selects it; all other selections are unchanged |

## Left out

- Cursor.DecodeDeliveryCursor: rejects the other spellings the Python parsers accept (stray characters in base64, other JSON layouts, ISO and UUID variants). Payloads that are not an object, or whose `created_at` or `id` is not a string, such as the cursor `MQ==` for the JSON number 1, make the code raise a `TypeError` or `AttributeError` that `app/services/delivery.py:102` does not catch; the model gives them the invalid-cursor error. Every cursor the service hands out is decoded as the code does.
- DeliveryLog.FetchDeliveryStatusCounts: is exact on an unchanging table only; on a changing one each row is counted with the status it had when its page was read.
- Paging.EveryRowOnce: says nothing of rows inserted after the first page, which may or may not be returned.
- Dispatch.DispatchedInAnyRun: needs each picked batch to be processed before the next scan; without that no bound holds. A row committed late between two scans counts against the bound once for each such interval.
- Dispatch.DispatchedWithin: assumes prompt commits besides, for which no due row depends on recovery alone; `Dispatch.DispatchedInAnyRun` is the statement for rows that do.
- Healing.RecoveryHeals: needs a recovery batch of at least one row; the code's default is 1000.
- Rest.ComesToRest: does not say that a broker hands every message out; it bounds the actions and says what holds when none is left. `RunToRest.RestIsReached` shows that a schedule which does so exists.
- RunToRest.RestIsReached: starts where no retry commit is overdue; a commit already later than the bound cannot be made prompt. `Healing.RecoveryHeals` starts anywhere, and may need recovery requests.
- Requests outside the route's page limits (1 to 100) and `wait_for_deliveries`, which polls the client walk until a deadline.
- HTTP, TLS and the network: a POST is answered by a status code or by an exception. Response text, latency and truncation are opaque.
- HMAC-SHA256 and JSON serialisation: the signature is an uninterpreted function of secret and body; no payload byte round trip is claimed.
- Celery, Redis and Postgres internals beyond the assumptions above, and exceptions other than `requests.RequestException`, whose effect on a message is a matter of Celery configuration.
- A guarantee for events whose API process died between commit and dispatch: the step is modelled, and `docs/known-gaps.md:93-106` concedes the gap.
- The conflict errors of endpoint create and update: no constraint of the modelled tables can fail there.
- Routes, schemas, authentication, health checks, tenant creation beyond adding one, logging, settings, migrations, seed script, shell demos, Docker files, the dashboard and the receiver's log ids.
