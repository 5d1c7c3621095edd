# Verification of the stateful core

This Dafny project models the parts of the back end that keep state over time or loop over
data of any size, and proves what they guarantee over every input, every run and every
interleaving. Check all of it with `dafny verify dfyconfig.toml`.

Code that changes fields or tables is modelled as a class whose methods are proved to take
the steps of a specification written as functions; the theorems are about every run of
those steps. Beside each specification function stand lemmas that say what it means without
it, in terms of the records and texts it reads. Where a promise does not hold in general, a
lemma shows an input or a run that breaks it and another says when it holds.

- **Schedulers.** `RequestHeap` is the binary heap that `heapq` keeps. `OllamaScheduler` is
  the priority queue in front of the local Ollama runtime, `CostLane` the lane for Azure
  Cost Management queries: each lock-held block is one event, and a thread is asleep in
  `wait`, notified, or running. `BackgroundWorker` is the single asyncio lane; control
  changes hands only at an `await`.
- **Mailbox bot.** `MailboxPoller` has the mailbox as a history of what is visible when, the
  row table, the reporter mode, Jira's issues, and every way in which the calls of a poll
  can fail; runs are sequences of polls of both mailboxes. Retries by hand are a further action.
- **VM cost export.** `ResourceIds` deduplicates, sorts, counts and cuts up resource ids;
  `CostQuery` is the lookup of costs with its retries and totals; `CostFetch` is the chunk
  loop that halves under throttling, with its progress; `VmRelationships`, `VmExport` and
  `VmExportRun` attribute costs and put the export together. Money is in whole cents.
- **Alerts.** `AzureAlertTables`, `VmDeallocation` and `DisabledAccounts` relate the two
  state tables to the history of evaluations; `SeenTickets` relates seen tickets to
  baselines and sent emails, with checks that may overlap.
- **Pure rules.** `LandingZonePath` is the printer and the validator of export paths;
  `TriageEnforcers` the three passes over triage suggestions; `EmployeeNumberImport` the
  plan and the writes of the employee-number import.
- `Options`, `Sequences` and `Text` are shared: an option type, what one list takes from
  another, and lower case, stripping and search.

Where code and its documentation differ, the model follows the code:

- A comment in the bot's schema (`backend/askhr_bot_job.py:213-215`) wants a ticket for each
  of the two mailboxes. The search before creation goes by Message-ID (section 3.6.4 of
  RFC 5322) and project, so once one mailbox's issue carries the .eml the other mailbox's
  copy is attached to it: `MailboxPoller.FiledOnceForBothMailboxes`.
- The import plan (`backend/ad_employee_number_import.py:55-56`) says it keeps the last
  filled row of an email. A later row with a blank number supersedes it all the same:
  `EmployeeNumberImport.LastRowDecides`.
- The lookup returns a row for every spelling of a resource id, and the index keyed by the
  normalised id keeps one of them: `CostFetch.IndexIsWholeIff`.
- The Ollama coordinator takes any limit, but wakes nobody when it admits a request, so only
  a limit of 1 uses its slots fully: `OllamaScheduler.NoSlotLostIffSingle`.

## Model

| member | source | states |
|---|---|---|
| `RequestHeap.HeadIsMin` | backend/ai_client.py:255-262 | the first element of the heap list is a minimum of the queue under (priority, order) |
| `RequestHeap.HeapQueue.Push` | backend/ai_client.py:256 | pushing keeps heap order and adds exactly the pushed entry |
| `RequestHeap.HeapQueue.Pop` | backend/ai_client.py:260 | popping returns a minimum, keeps heap order and removes exactly that entry |
| `OllamaScheduler.StepKeepsInv` | backend/ai_client.py:248-274 | every atomic step keeps: queue = waiting calls, `active` = number of running calls and within the limit, labels = labels of running calls, and with nothing running the head is awake |
| `OllamaScheduler.RunKeepsInv` | backend/ai_client.py:248-274 | the same over every run from any good state |
| `OllamaScheduler.FinishKeepsInv` | backend/ai_client.py:267-274 | when a call finishes, the count is at least one and its label is recorded, so neither the clamp at zero nor the swallowed `ValueError` is ever reached |
| `OllamaScheduler.OvertakingIsBounded` | backend/ai_client.py:248-264 | while a request waits, admissions before it are exactly those ahead of it at the start plus later arrivals of strictly smaller priority number, less those still queued |
| `OllamaScheduler.OvertakerIsMoreUrgent` | backend/ai_client.py:258-263 | whoever is admitted before a waiting request is smaller in (priority, order); if it arrived later its priority number is strictly smaller |
| `OllamaScheduler.AdmittedIff` | backend/ai_client.py:257-264 | in any reachable state a woken call is admitted exactly if fewer calls run than the limit and its request comes before all others that wait; a new call under the same terms at once |
| `OllamaScheduler.GoneStaysGone` | backend/ai_client.py:260 | an admitted request never comes back to the queue |
| `OllamaScheduler.QueueNeverStalls` | backend/ai_client.py:257-264 | with a non-empty queue, either a running call can finish and notify, or an awake call is admitted by its next check |
| `OllamaScheduler.SecondSlotCanBeLost` | backend/ai_client.py:257-264 | for every limit of two or more there is a run that ends with a free slot and the head of the queue asleep |
| `OllamaScheduler.NoSlotLostIffSingle` | backend/ai_client.py:97 | no run ever leaves the head asleep beside a free slot if and only if the limit is at most 1, the configured value |
| `OllamaScheduler.RootIsTheMin` | backend/ai_client.py:258 | under unique orders, being the first element of the list is being the minimum of the queue |
| `OllamaScheduler.OllamaRequestCoordinator.constructor` | backend/ai_client.py:229-235 | a new coordinator is in the initial state, its limit raised to at least 1 |
| `OllamaScheduler.OllamaRequestCoordinator.Enter` | backend/ai_client.py:249-264 | entering `run` up to the first wait or admission is the step of the protocol; the result says whether the call was admitted |
| `OllamaScheduler.OllamaRequestCoordinator.Recheck` | backend/ai_client.py:257-264 | a woken call repeats its check; the new state is the wake step of the protocol |
| `OllamaScheduler.OllamaRequestCoordinator.Finish` | backend/ai_client.py:267-274 | the `finally` block is the finish step, without clamping and with the label found |
| `OllamaScheduler.RemoveFirst` | backend/ai_client.py:270-273 | removing a label takes exactly one occurrence, or reports that there is none |
| `CostLane.StepKeepsInv` | backend/azure_client.py:144-184 | every atomic step keeps: one holder, the waiting counter exact, the job counter exact, no sleeper whose guard is open, and nothing started within the gap |
| `CostLane.RunKeepsInv` | backend/azure_client.py:144-184 | the same over every run, and the log of finished claims only grows |
| `CostLane.LaneIsExclusive` | backend/azure_client.py:152-168 | in every reachable state at most one claim has the lane, it is the recorded caller, and `_waiting_exports` is the number of exports still waiting |
| `CostLane.ExportsGoFirst` | backend/azure_client.py:149-154 | nobody is admitted to a taken lane, and no other caller while an export waits |
| `CostLane.FreeLaneIsTaken` | backend/azure_client.py:152-169 | with the lane free and claims waiting, every claim whose guard is open is awake and its next check takes the lane: no deadlock |
| `CostLane.GapBetweenClaims` | backend/azure_client.py:155-167 | in every run each claim starts its work at least the minimum gap after the recorded end of the claim before it |
| `CostLane.AdmittedSleepsTheRest` | backend/azure_client.py:155-162 | in any reachable state whoever is admitted sleeps off exactly the rest of the gap since the last end, not at all if it is over, and may then begin |
| `CostLane.AdmittedIff` | backend/azure_client.py:146-154 | in any reachable state an entering or woken claim is admitted exactly if no claim has the lane and, unless it is an export, no export waits |
| `CostLane.OpenJobsAreCounted` | backend/azure_client.py:171-184 | over every run the open export jobs are those opened less those closed |
| `CostLane.AzureCostQueryCoordinator.Enter` | backend/azure_client.py:146-162 | entering a claim is the step of the protocol; the gap returned is the least that keeps the distance from the last end |
| `CostLane.AzureCostQueryCoordinator.Recheck` | backend/azure_client.py:152-160 | a woken claim repeats its check |
| `CostLane.AzureCostQueryCoordinator.TurnOfWaitLoop` | backend/azure_client.py:152-160 | one turn of the wait loop takes the lane exactly when the guard is open |
| `CostLane.AzureCostQueryCoordinator.Release` | backend/azure_client.py:165-169 | the `finally` block records the end at the time given, logs the claim, frees the lane and leaves nobody asleep |
| `CostLane.AzureCostQueryCoordinator.OpenExportJob` | backend/azure_client.py:173-174 | counts an export job in |
| `CostLane.AzureCostQueryCoordinator.CloseExportJob` | backend/azure_client.py:178-180 | counts an export job out and leaves nobody asleep |
| `CostLane.AzureCostQueryCoordinator.HasActiveExportJob` | backend/azure_client.py:182-184 | true exactly while an export job is open |
| `BackgroundWorker.StepKeepsInv` | backend/ai_background_worker.py:75-127 | every stretch between two awaits keeps: queue = submitted and not started, started = finished plus the one at work, futures match completions, no sleep on work |
| `BackgroundWorker.RunKeepsInv` | backend/ai_background_worker.py:75-127 | the same over every run, and records only grow: a settled future keeps its value |
| `BackgroundWorker.RunsOnceEach` | backend/ai_background_worker.py:81-98 | in every reachable state no job was started twice, none is finished out of turn, at most one is at work, and no future was set twice |
| `BackgroundWorker.CallerGetsOutcome` | backend/ai_background_worker.py:89-98 | in every reachable state the future of a finished job says whether its work raised, unless its caller has cancelled it, and no other future is resolved |
| `BackgroundWorker.CompletionSettlesCurrent` | backend/ai_background_worker.py:89-98 | a completion settles the pending future of the job at work with what the work did, and no other future |
| `BackgroundWorker.IdleMeansDrained` | backend/ai_background_worker.py:78-80 | when the worker sleeps with the event clear, every submission has run and its future is settled |
| `BackgroundWorker.WorkIsTaken` | backend/ai_background_worker.py:77-81 | a non-empty queue always has a runner that can move, and the job it takes next is below every other in (priority, order) |
| `BackgroundWorker.AIBackgroundWorker.RunItem` | backend/ai_background_worker.py:108-127 | submitting draws the next order, pushes, creates a pending future and sets the event |
| `BackgroundWorker.AIBackgroundWorker.Resume` | backend/ai_background_worker.py:77-88 | the runner regains control: it clears the event and waits, or takes the minimum |
| `BackgroundWorker.AIBackgroundWorker.LoopHead` | backend/ai_background_worker.py:78-88 | the head of the loop waits exactly on an empty queue and otherwise takes a minimum |
| `BackgroundWorker.AIBackgroundWorker.Complete` | backend/ai_background_worker.py:89-98 | the pending future of the finished job is resolved with what its work did, a cancelled one stays, and the runner goes on without yielding |
| `BackgroundWorker.AIBackgroundWorker.CancelCaller` | backend/ai_background_worker.py:92-96 | a cancelled caller leaves the job queued and its future done |
| `MailboxPoller.CreationIsGuarded` | backend/askhr_bot_job.py:645-660 | a ticket is created only when the row holds no key and no issue carries the .eml; afterwards the caller knows the key or the .eml is on an issue |
| `MailboxPoller.SkippedExactly` | backend/askhr_bot_job.py:666-671 | a message new to the mailbox is skipped exactly if its sender, stripped and in lower case, is no bypass sender and the text behind its last at sign (blank without one) is a trusted domain; a skip clears the row and does nothing else |
| `MailboxPoller.ProcessedExactly` | backend/askhr_bot_job.py:489-540 | everything else a visit comes to, for all answers of Jira and Graph at once: which issue it works on, whether and how one is created, the row, the mode and the .eml |
| `MailboxPoller.ModeSettlesOnce` | backend/askhr_bot_job.py:508-540 | over any visits the reporter mode is unset exactly until the first ticket is created, and never changes after that |
| `MailboxPoller.AtMostOneTicket` | backend/askhr_bot_job.py:645-886 | over any visits none of which loses a key, a (mailbox, Message-ID) has at most one ticket, which can be found again |
| `MailboxPoller.NoDuplicateTickets` | backend/askhr_bot_job.py:666-671 | over any visits by polls, a mailbox never creates two tickets for a Message-ID that it does not take, refuse and take again, whatever fails |
| `MailboxPoller.OneTicketIff` | backend/askhr_bot_job.py:645-874 | for given visits, the outside world can make a mailbox create a second ticket for a Message-ID if and only if the visits take it, refuse it and take it again, which settings and senders alone decide |
| `MailboxPoller.LostKeyAllowsDuplicate` | backend/askhr_bot_job.py:848-855 | from every world in which a skip clears the only trace of a ticket, the next visit under trusted domains that take the sender again can create a second one |
| `MailboxPoller.TrustedBetweenRetriesDuplicates` | backend/askhr_bot_job.py:848-874 | any message comes to two tickets in a run: the upload fails, its domain is trusted for one poll, and then no longer |
| `MailboxPoller.CreatedIsFinal` | backend/askhr_bot_job.py:845-846 | no visit by a poll ever changes a row with status `created` |
| `MailboxPoller.FiledOnceForBothMailboxes` | backend/askhr_bot_job.py:650-654 | once any issue carries the .eml of a Message-ID, no poll of either mailbox creates a ticket for it |
| `MailboxPoller.MailIsScannedIff` | backend/askhr_bot_job.py:773-822 | whether a poll scans a message it can see in a folder depends exactly on the checkpoint less the lookback and on the 24-hour cap, both cut to the second |
| `MailboxPoller.SinceExactly` | backend/askhr_bot_job.py:773-791 | the window reaches back from the checkpoint, or from now, by the lookback, but at most 24 hours |
| `MailboxPoller.SentBoundExactly` | backend/askhr_bot_job.py:794 | the bound sent is the last whole second at or before the start of the window |
| `MailboxPoller.BypassIgnoresCase` | backend/askhr_bot_job.py:745-748 | blanks around a sender and its case do not matter to the bypass list |
| `MailboxPoller.FilterPicks` | backend/askhr_bot_job.py:798-822 | what a poll keeps of a folder stays in the order in which it is read |
| `MailboxPoller.CoverageThreshold` | backend/askhr_bot_job.py:773-886 | over all runs of polls that have set a checkpoint, mail under a day old is always scanned by the first poll that reads its folder after it appears, if and only if its delay and (in the Inbox) the time between a poll's two reads together exceed the lookback by at most the unit of the receipt times, or lookback and unit exceed a day |
| `MailboxPoller.WholeSecondThreshold` | backend/askhr_bot_job.py:765-794 | with receipt times and a lookback of whole seconds, Inbox mail that appears within the lookback is always scanned exactly if polls take at most a second between their reads |
| `MailboxPoller.ThresholdToTheMicrosecond` | backend/askhr_bot_job.py:773-886 | with receipt times as fine as the clock, for any lookback, the threshold is exact to the microsecond |
| `MailboxPoller.FirstLookCanMiss` | backend/askhr_bot_job.py:798-822 | beyond that threshold, for every delay, skew, unit and lookback, a run of two polls that misses a message |
| `MailboxPoller.MailIsCovered` | backend/askhr_bot_job.py:773-822 | mail under a day old is scanned if no poll that moved the checkpoint ended more than the lookback after its receipt, from any checkpoint |
| `MailboxPoller.InboxMailIsCovered` | backend/askhr_bot_job.py:773-816 | from any checkpoint, Inbox mail under a day old that appears within the lookback of its receipt, less the time between a poll's two reads, is scanned by the first successful poll after it appears |
| `MailboxPoller.InternalMailIsCovered` | backend/askhr_bot_job.py:818-826 | the same for bypass senders in Internal Requests, for the first poll that reads both folders, with no allowance |
| `MailboxPoller.SlowPollCanMissMail` | backend/askhr_bot_job.py:798-822 | the instance at the lookback itself: a message that appears in the Inbox just within it is missed after a poll that takes a microsecond more than the unit between its reads |
| `MailboxPoller.CheckpointIsBehindReads` | backend/askhr_bot_job.py:885-886 | the checkpoint never runs ahead of the last read of the polls that moved it |
| `MailboxPoller.ScannedIsVisible` | backend/askhr_bot_job.py:796-822 | a poll that reads both folders scans exactly the visible messages at or after its bound |
| `MailboxPoller.CheckpointNeverRetreats` | backend/askhr_bot_job.py:783-794 | with nothing deleted, the checkpoint never decreases over any sequence of polls, clamped, truncated or failing |
| `MailboxPoller.PollsHandleVisits` | backend/askhr_bot_job.py:758-886 | a run of polls of both mailboxes is the handling of all their visits, one after the other |
| `MailboxPoller.PollsCreateOneTicket` | backend/askhr_bot_job.py:758-886 | in any run of polls no mailbox creates two tickets for a Message-ID that it does not take, refuse and take again |
| `MailboxPoller.PollsCreateOneTicketIff` | backend/askhr_bot_job.py:758-886 | and that is exact: polls that read the same but are answered otherwise can create a second ticket in every other case |
| `MailboxPoller.PollsKeepCreated` | backend/askhr_bot_job.py:845-846 | in any run of polls a row that says `created` after some of them is the same after all of them |
| `MailboxPoller.CheckpointsNeverRetreat` | backend/askhr_bot_job.py:885-886 | in any run of polls of both mailboxes with nothing deleted, neither checkpoint ever decreases, whatever settings change but the bypass senders |
| `MailboxPoller.CheckpointIsOfAttempts` | backend/askhr_bot_job.py:761-764 | in a run of polls a mailbox's checkpoint depends on its own polls only |
| `MailboxPoller.CoveredMailHasRow` | backend/askhr_bot_job.py:832-874 | in any run of polls, mail within the threshold has a row after the first poll that reads its folder once it has appeared |
| `MailboxPoller.RetriesCreateNoSecondTicket` | backend/routes_askhr_bot.py:116-167 | retries by hand and resets of the reporter mode between visits do not lead to a second ticket |
| `MailboxPoller.RetryKeepsCreatedIff` | backend/routes_askhr_bot.py:146-162 | a retry of a created row keeps its ticket, and its status exactly when the message can be read and everything is attached again |
| `MailboxPoller.AskHrBotJob.NewTicket` | backend/askhr_bot_job.py:489-540 | the reporter mode decides the call; `unset` falls back on 400 and 403 and remembers what worked; a raise leaves everything as it was |
| `MailboxPoller.AskHrBotJob.CreateOrAttachTicket` | backend/askhr_bot_job.py:645-660 | known key, else lookup, else creation, then the attachments, with every way to fail |
| `MailboxPoller.AskHrBotJob.HandleMessage` | backend/askhr_bot_job.py:832-874 | what one message does to rows, mode and tickets, and which status it is counted under |
| `MailboxPoller.AskHrBotJob.HandleMessages` | backend/askhr_bot_job.py:829-874 | the counters are the numbers of rows written with each status |
| `MailboxPoller.CreatedAreCounted` | backend/askhr_bot_job.py:864-874 | the created counter is the number of rows that come to say `created` |
| `MailboxPoller.CountersAddUp` | backend/askhr_bot_job.py:832-874 | the three counters add up to the messages that have an id and no created row when their turn comes |
| `MailboxPoller.AskHrBotJob.LatestReceipt` | backend/askhr_bot_job.py:837-840 | the latest receipt over all messages with an id, failed and skipped ones included |
| `MailboxPoller.AskHrBotJob.PollMailbox` | backend/askhr_bot_job.py:758-886 | a poll is the step of the run: it handles the scanned messages, writes one run row with each number in its column, and moves only its own checkpoint; if the Inbox cannot be read it changes nothing |
| `ResourceIds.DedupeIsExact` | backend/azure_cache.py:3996-4006 | deduplication keeps every non-blank spelling class exactly once |
| `ResourceIds.DedupeKeepsFirst` | backend/azure_cache.py:3996-4006 | of each spelling class the first id is kept, stripped, and the kept ids stay in order |
| `ResourceIds.KeyOfCore` | backend/azure_cache.py:2618-2619 | the key of an id does not depend on blanks and slashes around it, nor on its case |
| `ResourceIds.DedupeIsIdempotent` | backend/azure_cache.py:3987-4009 | deduplicating again changes nothing |
| `ResourceIds.ChunkIsFixed` | backend/azure_client.py:2157-2167 | a chunk of deduplicated ids is not changed by the deduplication inside the lookup |
| `ResourceIds.DedupeAllIsReady` | backend/azure_cache.py:3991-4009 | the result has distinct non-blank subscriptions with non-empty lists that need no more deduplication |
| `ResourceIds.DedupeAllKeepsLast` | backend/azure_cache.py:3991-4009 | each subscription keeps the ids of the last non-empty list given under it, however its name is padded |
| `ResourceIds.ReadyIsFixed` | backend/azure_cache.py:4034 | the deduplication inside the fetch leaves an already deduplicated dictionary as it is, so it fetches what was counted |
| `ResourceIds.DedupeIds` | backend/azure_cache.py:3996-4006 | the loop computes the deduplicated list |
| `ResourceIds.DedupeResourceIdsBySubscription` | backend/azure_cache.py:3988-4009 | the loop over the dictionary computes the deduplicated one |
| `ResourceIds.CountQueryChunks` | backend/azure_cache.py:4012-4022 | the planned number of chunks: each list rounded up |
| `ResourceIds.EnoughChunks` | backend/azure_cache.py:4021-4022 | chunks no larger than the planned size that hold all ids are at least as many as planned |
| `ResourceIds.PlannedIsLeast` | backend/azure_cache.py:4021-4022 | the planned number is the least number of full chunks that holds all ids |
| `ResourceIds.SortedInOrder` | backend/azure_cache.py:4039 | sorting puts the subscriptions in order and keeps each exactly once |
| `ResourceIds.FirstDifferenceDecides` | backend/azure_cache.py:4039 | the order of texts is that of the first difference |
| `ResourceIds.PrefixPrecedes` | backend/azure_cache.py:4039 | and a text comes before its extensions |
| `ResourceIds.SortingKeepsTags` | backend/azure_cache.py:4039 | the order of subscriptions does not change which ids are asked for |
| `ResourceIds.SortingKeepsChunks` | backend/azure_cache.py:4039 | nor how many chunks are planned |
| `ResourceIds.ReadyTagsOnce` | backend/azure_cache.py:3987-4009 | each deduplicated id occurs once among all the ids to ask for |
| `CostQuery.RetryAfterSeconds` | backend/azure_client.py:109-121 | the first usable of two headers, cut to whole seconds and at least one; none if neither can be read |
| `CostQuery.RowsAreTotals` | backend/azure_client.py:2172-2217 | the rows are one per label, each with the total charged to that label, the largest first |
| `CostQuery.MoneyIsConserved` | backend/azure_client.py:2192-2217 | the rows add up to the answers: no amount lost, repeated or invented |
| `CostQuery.CostClient.QueryWithRetries` | backend/azure_client.py:2180-2206 | a throttled query is repeated, each time after the delay its reply asked for or else two seconds, doubling, until it is answered, fails otherwise, or the attempts are used up |
| `CostQuery.CostClient.LookUp` | backend/azure_client.py:2178-2206 | every wanted id is sent once, in chunks of full size but for the last, and the rows are the totals of all answers; with one attempt and one chunk a single query without a pause |
| `CostQuery.CostClient.GetCostByResourceIds` | backend/azure_client.py:2146-2217 | a lookup fails as its last query did, or returns the totals for exactly the deduplicated ids |
| `CostQuery.QueriesAddUp` | backend/azure_client.py:2178-2206 | the queries of several rounds of answers are those of each round in turn |
| `CostQuery.ItemsAddUp` | backend/azure_client.py:2192-2206 | and so are the items that the totals are made of |
| `CostFetch.ProgressNeverRetreats` | backend/azure_cache.py:4120-4131 | in any list of reports that is steady, a later report is never below an earlier one and none exceeds the total then in force |
| `CostFetch.ExportProgress.Report` | backend/azure_cache.py:4120-4131 | a report advances the counter, capped at the total, and keeps the reports steady |
| `CostFetch.ExportProgress.Retotal` | backend/azure_cache.py:4224-4227 | recomputing the total mid-run keeps the counter and the reports steady |
| `CostFetch.SleepOffThrottle` | backend/azure_cache.py:4061-4077 | every throttle sleeps the delay the reply asked for, or one second, plus the buffer |
| `CostFetch.QueryNext` | backend/azure_cache.py:4049-4058 | the next ids, as many as the chunk size allows, are asked for in one lookup that makes one query at once and without a pause; a failure is that query's |
| `CostFetch.TakeTurn` | backend/azure_cache.py:4043-4095 | one turn is one query: answered, it serves the ids and pauses between chunks; throttled, and only then, it sleeps the delay and the buffer; failed, and only then, it gives up with that status |
| `CostFetch.FetchMore` | backend/azure_cache.py:4049-4095 | a turn keeps what has been fetched: the first ids, once each and in order, merged in order |
| `CostFetch.FetchSubscription` | backend/azure_cache.py:4040-4095 | the chunk loop ends; each query is begun before the deadline and asks for the ids that follow those answered, as many as the chunk size halved for every throttle so far; it gives up exactly when a query fails; if it completes it has served the ids once each and in order |
| `CostFetch.FetchLiveResourceCostIndex` | backend/azure_cache.py:4024-4097 | the same over all subscriptions, each starting at the full chunk size: an error is exactly that of the last query, a timeout only past the deadline, and a complete fetch has served exactly the deduplicated ids; progress counts the answered chunks |
| `CostFetch.AddServedAppends` | backend/azure_cache.py:4081-4084 | merging several rounds of chunks is merging each in turn |
| `CostFetch.OneServed` | backend/azure_cache.py:4049-4084 | and one chunk asks for its ids and merges its rows |
| `CostFetch.HalvedIsDivided` | backend/azure_cache.py:4062 | a chunk size halved again and again is the first one divided by that power of two, and at least one |
| `CostFetch.EachIdIsServedOnce` | backend/azure_cache.py:4039-4086 | after a complete fetch each deduplicated id is in exactly one answered chunk, and no other id is |
| `CostFetch.ChunkingIsInvisible` | backend/azure_cache.py:4039-4097 | for a service that prices ids, the index does not depend on throttling, chunk sizes or order: it is the index of one query for all ids |
| `CostFetch.OneSpellingIsWhole` | backend/azure_cache.py:4081-4084 | a key the service names in one spelling gets its whole cost, whatever the amounts, credits included |
| `CostFetch.KeyIsWholeIff` | backend/azure_cache.py:4081-4084 | without credits, the index holds the whole cost of a key exactly when it is named in one spelling or costs nothing |
| `CostFetch.IndexKeepsSmallestSpelling` | backend/azure_cache.py:4081-4084 | a key named in several spellings keeps only the smallest of their totals, since rows come largest first and the last one wins |
| `CostFetch.IndexIsWholeIff` | backend/azure_cache.py:4081-4084 | with positive charges, the index holds the whole cost of every key exactly when no key is named in two spellings |
| `VmRelationships.MarkAllIsStrongest` | backend/azure_cache.py:2912-2920 | each marked target ends with the label of highest priority it was marked with, and nothing else is a target |
| `VmRelationships.MarkingOrderIsIrrelevant` | backend/azure_cache.py:2912-2920 | the labels do not depend on the order of marking, nor on repeats |
| `VmRelationships.RelatedExactly` | backend/azure_cache.py:2887-2949 | read off the records: a key is related to a machine exactly if it is its own, its OS disk, a data disk or a network interface, belongs to a resource that names the machine as parent, manager or holder, or is a public IP of the last resource listed under one of its interfaces |
| `VmRelationships.LabelIsFirst` | backend/azure_cache.py:2900-2920 | and its label is the first of those that applies, in the order: virtual machine, OS disk, data disk, network interface, public IP, child, managed, attached |
| `VmRelationships.OneMachineLabel` | backend/azure_cache.py:2922 | exactly the machine's own id is labelled as the machine, even if it is also its own child, disk or address |
| `VmRelationships.Marker.Mark` | backend/azure_cache.py:2912-2920 | one call of `mark_related`: the label changes only if the target is new or its label weaker |
| `VmRelationships.MarkDeclared` | backend/azure_cache.py:2922-2933 | the marks that the machine's own record makes, in order |
| `VmRelationships.CollectVmRelationships` | backend/azure_cache.py:2887-2949 | the loops compute the relationships that these two rows describe |
| `VmRelationships.FindResourceIsLast` | backend/azure_cache.py:2867-2871 | the id index finds a resource exactly if one has the key, and then the last one listed |
| `VmExport.BuildVmAssociatedResourceRows` | backend/azure_cache.py:2951-2980 | one row for every associated key, with its label and whether its cost is asked for |
| `VmExport.ListedRelationshipsHaveOneMachine` | backend/azure_cache.py:2951-2980 | the rows of a machine list distinct keys, and the machine's own key alone has its label |
| `VmExport.CandidateExactly` | backend/azure_cache.py:3700-3710 | the cost of a related resource is asked for exactly if it is listed, no child, no network interface and no extension |
| `VmExport.DetailExactly` | backend/azure_cache.py:4331-4351 | a row is priced exactly if the index has its key, asked for or not, with that amount; otherwise unpriced exactly if it was asked for |
| `VmExport.TallyRows` | backend/azure_cache.py:4321-4372 | the loop computes the rows and their running sums |
| `VmExport.BuildVmRows` | backend/azure_cache.py:4314-4388 | the direct total is the sum of the priced rows and splits into the machine's own cost and the rest; the two counts are those of the rows |
| `VmExport.CollectSharedCandidates` | backend/azure_cache.py:4198-4218 | the shared candidates, and the ids asked for are theirs |
| `VmExport.SharedItemsAreShared` | backend/azure_cache.py:4207-4217 | a candidate is in a selected group, directly associated with no selected machine and related to no machine of the groups |
| `VmExport.PriceSharedCandidates` | backend/azure_cache.py:4261-4291 | one row for each priced candidate, and each group's count and amount are those of its rows |
| `VmExportRun.MapSelectedVms` | backend/azure_cache.py:4148-4186 | the associations, groups, directly associated keys and ids to ask for are those of the selected machines with an id, no more and no less |
| `VmExportRun.MappedRows` | backend/azure_cache.py:4166-4179 | a machine's rows are distinct, hold one machine label and all count as directly associated |
| `VmExportRun.ItemExactly` | backend/azure_cache.py:4153 | a machine's record is the last one listed under its id, or as it was selected |
| `VmExportRun.DirectAsksExactly` | backend/azure_cache.py:4156-4181 | read off the records: the direct phase asks for the listed resources related to a selected machine with an id, but for children, interfaces and extensions |
| `VmExportRun.SharedPlanExactly` | backend/azure_cache.py:4190-4218 | read off the records: the shared candidates are the resources in the group of a selected machine that are no machine, related to no selected machine and to no listed machine of those groups; each is asked for under its own subscription and id |
| `VmExportRun.CollectRelatedIds` | backend/azure_cache.py:2982-3013 | everything related to some machine of the selected groups, selected or not |
| `VmExportRun.PlanExport` | backend/azure_cache.py:4148-4227 | the plan is right, and when the total is recomputed the counter is the number of machines with an id |
| `VmExportRun.QueryCosts` | backend/azure_cache.py:4228-4259 | both phases answer exactly the planned ids and begin no query past their limits, max(1, minutes) and max(15, seconds); the export fails only at its limit or after a failed query, and goes without the shared phase only at a limit |
| `VmExportRun.QueryShared` | backend/azure_cache.py:4240-4259 | the second phase runs until the earlier of the two limits, and not at all without ids |
| `VmExportRun.BuildReport` | backend/azure_cache.py:4304-4410 | one machine's report: its rows, its attribution and its group's shared totals |
| `VmExportRun.BuildReports` | backend/azure_cache.py:4304-4414 | one report for every selected machine, in order, each counted as progress |
| `VmExportRun.BuildVirtualMachineCostExport` | backend/azure_cache.py:4099-4440 | the whole export: every report and shared row is right for the chunks answered, it raises only at its limit or after a failed query, and if neither phase times out and every machine has an id, progress ends exactly at its total |
| `VmExportRun.ReportHasItsMachine` | backend/azure_cache.py:4304-4372 | in every report of a machine with an id exactly one row has the machine label, and it is the machine's own |
| `VmExportRun.SharedRowsExactly` | backend/azure_cache.py:4249-4291 | read off the records: every shared candidate with a cost has a row and each row is the last candidate listed under its key, with its group and its cost; a shared phase that timed out leaves no rows |
| `VmExportRun.DetailRowsExactly` | backend/azure_cache.py:4304-4372 | the rows of a machine with an id are the relations of the last machine selected under that id, each once, with its label and the cost of its key |
| `VmExportRun.DirectAndSharedAreDisjoint` | backend/azure_cache.py:4211-4214 | no resource is both a detail row of a machine and a shared row |
| `AzureAlertTables.AzureAlertStore.SetVmFirstSeenDeallocated` | backend/azure_alert_store.py:368-380 | inserts a first sighting and never overwrites one |
| `AzureAlertTables.AzureAlertStore.PurgeVmStates` | backend/azure_alert_store.py:382-395 | keeps exactly the rows of the given machines, unchanged |
| `VmDeallocation.TableTracksStreaks` | backend/azure_alert_engine.py:164-187 | after any history the table holds exactly the machines deallocated at the last evaluation, each with the time at which its current unbroken streak began |
| `VmDeallocation.ListingsAreCounted` | backend/azure_alert_engine.py:164-171 | a machine counts as deallocated exactly if some listing has its id, the type of a virtual machine and a state that contains `deallocated`, in any case, and it is listed as often as that |
| `VmDeallocation.WholeDaysExactly` | backend/azure_alert_engine.py:177 | the days are the largest whole number that fits |
| `VmDeallocation.MatchesInOrder` | backend/azure_alert_engine.py:178-186 | matches follow the order of the snapshot |
| `VmDeallocation.ReportedIffLongStreak` | backend/azure_alert_engine.py:172-185 | being reported means that the current streak began at an earlier evaluation at least `min_days` whole days ago, exactly unless the machine is listed twice in the evaluation that begins its streak and `min_days` is not positive |
| `VmDeallocation.ReportedOnFirstSight` | backend/azure_alert_engine.py:172-178 | in the first evaluation of a streak a machine is reported exactly when it is listed twice and `min_days` is not positive |
| `VmDeallocation.ReportedDays` | backend/azure_alert_engine.py:176-184 | the reported days are the whole days since the stored first sighting |
| `VmDeallocation.EvaluateVmDeallocated` | backend/azure_alert_engine.py:156-188 | the evaluator returns the matches and leaves the table of the specification |
| `DisabledAccounts.TableIsLastState` | backend/azure_alert_store.py:397-419 | after any history the table holds the last observed state of every account seen |
| `DisabledAccounts.ReportsCountDrops` | backend/azure_alert_engine.py:254-269 | over any history an account is reported as often as its observed states step from enabled to disabled, skipping snapshots without it |
| `DisabledAccounts.GuardIsInvisible` | backend/azure_alert_engine.py:270-273 | the guard for a first run never changes the result |
| `DisabledAccounts.ReportsAreUsers` | backend/azure_alert_engine.py:254-269 | what is reported are disabled users of the snapshot as it shows them, in its order |
| `DisabledAccounts.BlankIdIsNeverReported` | backend/azure_alert_engine.py:255-257 | an account without an id is never reported |
| `DisabledAccounts.EvaluateAccountsDisabled` | backend/azure_alert_engine.py:249-273 | the evaluator returns the newly disabled accounts and leaves the last states |
| `SeenTickets.MatchedExactly` | backend/alert_engine.py:346-382 | a ticket is found exactly when it is unseen, accepted now, and what the refresh made of a ticket accepted before: the last copy under its key, or itself if there is none, it has no key or the refresh failed |
| `SeenTickets.RefreshIsExact` | backend/alert_engine.py:501-527 | a refresh has one result for each ticket, in its place, and that is it |
| `SeenTickets.AcceptedExactly` | backend/alert_engine.py:64-119 | when a rule accepts a ticket, written out: scope, creation since the last run or within 24 hours, and the three filters without regard to case |
| `SeenTickets.EvaluatePicks` | backend/alert_engine.py:346-353 | an evaluation picks exactly the accepted tickets, in their order |
| `SeenTickets.UnseenPicks` | backend/alert_engine.py:357-362 | the filter for new tickets picks exactly the unseen ones, in their order |
| `SeenTickets.RecipientsExactly` | backend/alert_engine.py:562 | a list has recipients exactly if a part between commas is not blank |
| `SeenTickets.CheckSendsExactly` | backend/alert_engine.py:550-566 | a check puts one email in flight exactly if it has recipients and anything to send, and the email is about exactly the tickets to be announced |
| `SeenTickets.BaselineTakesAll` | backend/alert_engine.py:385-391 | a baseline makes exactly the accepted tickets of the moment the seen ones of its rule |
| `SeenTickets.LastRunMoves` | backend/alert_engine.py:555-579 | a rule's last run moves when a scheduled check finds nothing and when an email of it has gone out or failed, and never else |
| `SeenTickets.StepKeepsInv` | backend/alert_engine.py:537-583 | every step keeps: seen = known, and tickets chosen or announced repeat nothing known before they were chosen |
| `SeenTickets.SeenIsBaselineAndSent` | backend/alert_store.py:376-421 | in any run, the seen keys of a rule are its baseline together with all keys sent since |
| `SeenTickets.SerialAnnouncementsAreDisjoint` | backend/alert_engine.py:357-399 | in any run, an announcement whose check began after another was recorded, or after the baseline, shares no key with it |
| `SeenTickets.OverlapRepeatsInARun` | backend/alert_engine.py:550-580 | for every rule and every ticket it finds, a run from empty tables announces the ticket twice: two checks begin before the first email is recorded |
| `SeenTickets.BaselineRepeatsInARun` | backend/alert_engine.py:385-391 | for every rule and every ticket it finds, a run from empty tables announces a ticket of its own baseline, taken while the email is in flight |
| `SeenTickets.FailedSendIsRetriedIff` | backend/alert_engine.py:569-581 | after a failed send a ticket that the next check's refresh, successful or not, leaves unchanged is found again exactly when the rule is not limited to new tickets or the ticket is no older than the failed send |
| `SeenTickets.AlertStore.GetSeenTicketKeys` | backend/alert_store.py:376-382 | the keys seen under one rule |
| `SeenTickets.AlertStore.MarkTicketKeysSeen` | backend/alert_store.py:384-405 | adds the non-blank keys to one rule and touches no other |
| `SeenTickets.AlertStore.ReplaceSeenTicketKeys` | backend/alert_store.py:407-421 | makes the non-blank keys the seen keys of one rule and touches no other |
| `SeenTickets.FilterUnseenTickets` | backend/alert_engine.py:357-362 | only rules for new tickets filter, in order |
| `SeenTickets.GetRuleMatches` | backend/alert_engine.py:365-382 | the loops and the refresh compute the matches that `MatchedExactly` describes; an unknown trigger is the error |
| `SeenTickets.BaselineNewTicketRule` | backend/alert_engine.py:385-391 | replaces the seen keys of a new-ticket rule by all it matches now, seen or not; other rules are left alone |
| `SeenTickets.BeginCheck` | backend/alert_engine.py:550-569 | a check up to its email: nothing found moves the last run, no recipients or an unknown trigger change nothing, otherwise the tickets to be sent |
| `SeenTickets.FinishCheck` | backend/alert_engine.py:569-581 | what follows the email: a history row and a new last run in any case, seen keys only if it was delivered and the rule is for new tickets |
| `SeenTickets.VisitRule` | backend/alert_engine.py:546-581 | one rule of a pass, and whether its email went out |
| `SeenTickets.VisitRecords` | backend/alert_engine.py:546-581 | a rule that is due adds one history row about its matches, with how the email went, exactly if it is known, has recipients and matches anything; one that is not due changes nothing |
| `SeenTickets.PassSplits` | backend/alert_engine.py:545-581 | a pass visits each rule in the state the ones before left |
| `SeenTickets.PassOfOne` | backend/alert_engine.py:545-581 | and a pass over one rule is its visit |
| `SeenTickets.SentRowsCount` | backend/alert_engine.py:580-583 | the rows counted as sent are those marked so, once each |
| `SeenTickets.RunAlertChecks` | backend/alert_engine.py:537-583 | an uninterrupted pass over the rules; the number returned is the number of history rows it added as sent |
| `LandingZonePath.NormalizeIsIdempotent` | backend/azure_export_contract.py:34-41 | normalising is idempotent, and its fixed points are exactly the canonical segments, which are described without it |
| `LandingZonePath.NormalizeKeepsLetters` | backend/azure_export_contract.py:35-38 | normalising keeps the letters and digits of the lower-case text, in order |
| `LandingZonePath.RunBecomesDash` | backend/azure_export_contract.py:36-37 | a run of forbidden characters and dashes inside a text becomes one dash |
| `LandingZonePath.EndsAreDropped` | backend/azure_export_contract.py:35-38 | at the ends forbidden characters, dots, dashes and underscores go, blanks among them |
| `LandingZonePath.CaseIsIgnored` | backend/azure_export_contract.py:35 | the case of the letters does not matter |
| `LandingZonePath.SpecialCapitals` | backend/azure_export_contract.py:35 | the dotted capital I and the Kelvin sign become an i and a k |
| `LandingZonePath.AllowedAreListed` | backend/azure_export_contract.py:17 | a segment holds only the 40 characters listed |
| `LandingZonePath.ListedAreAllowed` | backend/azure_export_contract.py:17 | and may hold each of them |
| `LandingZonePath.ScopeKeyIsCanonical` | backend/azure_export_contract.py:50-53 | a scope key is a normal segment that holds the separator |
| `LandingZonePath.ScopeKeysMeetIff` | backend/azure_export_contract.py:53 | two pairs with canonical types have the same key exactly if they are equal or the end of one type, behind a separator inside it, has moved to the front of the other's value |
| `LandingZonePath.ScopesShareKeyIff` | backend/azure_export_contract.py:50-53 | so two scopes, as given, share a key exactly if their normal forms are so related |
| `LandingZonePath.ScopeKeysSplit` | backend/azure_export_contract.py:53 | scope types without a separator are told apart: such a key splits in one way |
| `LandingZonePath.ScopeKeysCollide` | backend/azure_export_contract.py:53 | a separator inside a type can move into the value without changing the key |
| `LandingZonePath.SpecsAreWellFormed` | backend/azure_export_contract.py:74-80 | the specifications that can be built are the well-formed ones, and rebuilding one gives it back |
| `LandingZonePath.ParsePrintedDate` | backend/azure_export_contract.py:88 | a printed date parses to itself, whatever other formats are accepted |
| `LandingZonePath.DatePrintsItsFields` | backend/azure_export_contract.py:88 | a date prints as its year in four digits, its month in two and its day in two |
| `LandingZonePath.ParsesExactlyPrintedDates` | backend/azure_export_contract.py:171 | a text in the form of a date is a date exactly if some date prints so |
| `LandingZonePath.CalendarIsGregorian` | backend/azure_export_contract.py:171 | the days of each month, February by the rule of four, a hundred and four hundred |
| `LandingZonePath.ValidatesExactlyPrintedPaths` | backend/azure_export_contract.py:132-184 | under a root, validation returns a specification exactly for the path that it prints, given a separator in its scope key |
| `LandingZonePath.ValidationWithoutRootIsCanonical` | backend/azure_export_contract.py:145-152 | without a root, the specification returned has a canonical path, which validates to it with and without the root |
| `LandingZonePath.ValidatesWithoutRootIff` | backend/azure_export_contract.py:145-179 | without a root, exactly which paths validate to which specification, segment by segment |
| `LandingZonePath.LayoutByExample` | backend/azure_export_contract.py:82-94 | the layout of a delivery, as the tests of the repository spell it out |
| `LandingZonePath.PartitionNames` | backend/azure_export_contract.py:56-60 | a partition is one of the four names, however it is written |
| `LandingZonePath.PathsAreDistinct` | backend/azure_export_contract.py:82-94 | distinct specifications under one root have distinct paths |
| `TriageEnforcers.EnforceNonNewPriority` | backend/ai_client.py:1799-1836 | the first pass: every priority suggestion of New, or with blanks around it, is replaced by its normal form, and a ticket at New without any gets Low |
| `TriageEnforcers.EnforceSecurityPriority` | backend/ai_client.py:1725-1783 | the second pass, on non-empty lists of security alerts only: priority suggestions go if the ticket is High or Highest, else the first becomes High, later ones go, and a missing one is added |
| `TriageEnforcers.EnforceReporterHint` | backend/ai_client.py:1678-1722 | the third pass, only where the description names a reporter: reporter suggestions go if that is the current one, else the first is rewritten, later ones go, and a missing one is added |
| `TriageEnforcers.EnforceSuggestions` | backend/ai_client.py:1890-1896 | the three passes in their order: New priorities first, security second, reporter last |
| `TriageEnforcers.OthersPassInOrder` | backend/ai_client.py:1678-1836 | suggestions for anything but priority and reporter pass unchanged and in order |
| `TriageEnforcers.KeepPicks` | backend/ai_client.py:1693 | dropping suggestions of a field leaves exactly the others, in their order |
| `TriageEnforcers.SecurityIffTyped` | backend/ai_client.py:1735-1748 | a ticket is a security alert exactly if the first suggestion of a request type says so, or, without one, its own type does |
| `TriageEnforcers.SecurityPassRewrites` | backend/ai_client.py:1754-1772 | in a security alert below High the first priority suggestion is put at High in its place, with its own current value if it has one and a confidence of at least 0.99, and later ones go |
| `TriageEnforcers.SecurityPassAdds` | backend/ai_client.py:1773-1783 | and without one it is added at the end |
| `TriageEnforcers.ReporterPassRewrites` | backend/ai_client.py:1695-1711 | if the description names another reporter, the first reporter suggestion names them in its place and later ones go |
| `TriageEnforcers.ReporterPassAdds` | backend/ai_client.py:1712-1722 | and without one it is added at the end |
| `TriageEnforcers.NonNewPassAt` | backend/ai_client.py:1804-1836 | place by place: the first pass changes only priority suggestions that are New or padded, and adds one at the end to a ticket at New that has none |
| `TriageEnforcers.NewBecomesLow` | backend/ai_client.py:1786-1796 | New becomes Low whatever blanks are around it and in any case; any other priority loses its blanks only |
| `TriageEnforcers.NormalizeIsNormal` | backend/ai_client.py:1786-1796 | a normalised priority is its own normal form and is never New |
| `TriageEnforcers.NoNewPriorityIsLeft` | backend/ai_client.py:1804-1836 | no answer leaves a priority suggestion of New |
| `TriageEnforcers.NewTicketGetsPriority` | backend/ai_client.py:1825-1834 | a ticket at New always gets a priority suggestion |
| `TriageEnforcers.SecurityTicketIsHigh` | backend/ai_client.py:1742-1783 | a security alert has exactly one priority suggestion, High, or none if it is High or Highest already |
| `TriageEnforcers.ReporterFollowsHint` | backend/ai_client.py:1692-1722 | a named reporter leaves no reporter suggestion if current, and otherwise exactly one, which names them |
| `TriageEnforcers.OtherTicketsFollowAnswer` | backend/ai_client.py:1806-1834 | on other tickets priority suggestions stay in number and order with New turned into Low; one is added only to a ticket at New without any |
| `TriageEnforcers.EnforceIsIdempotent` | backend/ai_client.py:1890-1896 | enforcing a non-empty answer twice is enforcing it once |
| `TriageEnforcers.EmptyAnswerIsIdempotentIff` | backend/ai_client.py:1732-1733 | on an empty answer that fails exactly for a security alert below High, not at New, with a reporter hint to apply |
| `EmployeeNumberImport.PlannedAction` | backend/ad_employee_number_import.py:84-99 | each of the five actions is taken exactly under its condition on file and directory, and the planned row repeats the row and, if there is one, the account |
| `EmployeeNumberImport.ColumnsAreStripped` | backend/ad_employee_number_import.py:61-75 | blanks around the email and the number do not count |
| `EmployeeNumberImport.ReachesIff` | backend/ad_employee_number_import.py:84-91 | a row is looked up exactly when it has an email and a number and no later row has the email |
| `EmployeeNumberImport.LastRowDecides` | backend/ad_employee_number_import.py:63-67 | an email is looked up exactly when its last row has a number: a later blank row supersedes an earlier filled one |
| `EmployeeNumberImport.AskedReach` | backend/ad_employee_number_import.py:91 | the directory is asked exactly for the emails of the looked-up rows |
| `EmployeeNumberImport.AskedOnce` | backend/ad_employee_number_import.py:91 | no email is looked up twice |
| `EmployeeNumberImport.LastIndices` | backend/ad_employee_number_import.py:63-67 | the loop computes the last row of every email |
| `EmployeeNumberImport.PlanOneRow` | backend/ad_employee_number_import.py:71-99 | one row's plan, and the lookup it makes |
| `EmployeeNumberImport.BuildRowPlan` | backend/ad_employee_number_import.py:48-103 | the loop computes the plan, with those lookups in order and no others |
| `EmployeeNumberImport.CountActions` | backend/ad_employee_number_import.py:396-413 | the four counts are those of the actions and add up to the number of rows |
| `EmployeeNumberImport.ActiveDirectory.UpdateUser` | backend/ad_employee_number_import.py:459 | a write that is refused or names no account changes nothing |
| `EmployeeNumberImport.WritesLeaveLastValue` | backend/ad_employee_number_import.py:455-464 | the writes change numbers only, each account's to the last value written |
| `EmployeeNumberImport.LastWriteIsLast` | backend/ad_employee_number_import.py:455-464 | which is that of the last row for the account that is neither excluded nor refused |
| `EmployeeNumberImport.MarkSaysOutcome` | backend/ad_employee_number_import.py:460-464 | an update row is marked as applied if its write went through and as failed if not |
| `EmployeeNumberImport.OtherMarksStay` | backend/ad_employee_number_import.py:456-457 | an excluded row, and one that is no update, keeps its mark |
| `EmployeeNumberImport.SuccessesAreCounted` | backend/ad_employee_number_import.py:459-468 | the applied count is the number of rows neither excluded nor refused that name an account |
| `EmployeeNumberImport.UpdateRowsPick` | backend/ad_employee_number_import.py:437-455 | the rows written are the planned updates, in file order |
| `EmployeeNumberImport.RunApplyPhase` | backend/ad_employee_number_import.py:437-468 | applied, failed and excluded add up to the updates; the directory and the row marks are those of the successful writes; the job has errors exactly when a write failed |
| `EmployeeNumberImport.ReplanIsQuietIff` | backend/ad_employee_number_import.py:61-103 | when every update is written, planning the same file again finds none exactly when looked-up rows of one account agree on its number |
| `EmployeeNumberImport.DistinctAccountsAgree` | backend/ad_employee_number_import.py:91-99 | in particular when distinct emails name distinct accounts |
| `Text.TrimTakesEnds` | backend/azure_cache.py:2619 | a strip takes off exactly what is to be dropped at the two ends |
| `Text.SpacesAreListed` | backend/azure_cache.py:2619 | the characters that a strip without arguments takes off, one by one |
| `Text.LowerMapsLetters` | backend/azure_cache.py:2619 | lower case maps the alphabet letter by letter and leaves other characters alone |
| `Text.ContainsMeans` | backend/azure_alert_engine.py:168 | a text contains another exactly if that stands somewhere in it |

## Left out

Outside the model:

- The network and the databases: Graph, Jira, ARM, LDAP and e-mail answer with any value of
  the type the code can receive, and writes to the bot's, alerts' and import's own tables
  succeed.
- Clocks only move forward; waiting takes at least as long as asked.
- Interrupted threads, cancelled asyncio tasks, a change of event loop
  (`backend/ai_background_worker.py:46-52`), a dead runner task, process crashes inside a
  step, and wake-ups that no notification caused.
- Retries by hand that run while a poll is creating a ticket for the same message
  (`backend/routes_askhr_bot.py:123-167`): in the model a retry, and a reset of the reporter mode,
  happens between two visits. The results named after polls are about polls alone; a retry can
  turn a created row into a failed one (`MailboxPoller.RetryKeepsCreatedIff`).
- Exceptions other than `AzureApiError` from the cost client, and the retries inside
  `_cost_management_request`, which are part of a query's unspecified delay.
- A retry header of infinity, on which `int(float(...))` raises an `OverflowError`.
- A cost fetch without a deadline, which the export never asks for.
- Rounding of floating-point amounts to cents, currencies, shares, and the label
  "Unspecified" for items without an id; items arrive with stripped labels.
- Names, texts, sorting and columns of the export's sheets, and the status texts.
- The filters that select the machines of an export: the selection is an input.
- `_should_run`: whether a rule is due is an input of a pass; so are the matches of triggers
  other than `new_ticket`.
- Rendering of e-mails, descriptions and attachments; resolving a sender to an account.
- Messages without a receipt time, and checkpoints without a time zone, which the bot reads
  as UTC.
- Default priorities by lane and by feature: the priority of a request is an input.
- Reading the CSV file, and the limit of 1,000,000 update rows.
- `snapshot`, `status` and other read-only views.

Not promised by the code, so not claimed:

- Fairness to cost queries other than exports, which exports can overtake for ever.
- Use of every slot by the Ollama coordinator when its limit is above 1.
- One ticket per mailbox for a message that reaches both.

Narrower than it might be:

- Text.Lower: changes ASCII letters only. That is exact for domains, resource ids and fixed names; names of people, which may hold others (a reporter in `backend/ai_client.py:1692`, an assignee in `backend/alert_engine.py:76-82`), are compared up to ASCII case only, where Python also folds other letters. `LandingZonePath` adds the two other characters whose lower case matters there.
- LandingZonePath.ValidatesExactlyPrintedPaths: paths are lists of parts with an exact root prefix, because how `pathlib` reads a text into parts is not part of this model; date texts other than `YYYY-MM-DD` are read by an arbitrary function.
- MailboxPoller.NoDuplicateTickets: rests on creation that raises having created nothing, because the bot could not see such an issue either, and on the search finding any issue that carries the .eml.
- CostFetch.ChunkingIsInvisible: is about a service that answers for an id the same in every chunk, because no index can be independent of the chunks otherwise.
- EmployeeNumberImport.ReplanIsQuietIff: is about an apply phase with nothing excluded or refused, because an update that is held back is planned again by design.
- CostFetch.IndexIsWholeIff: amounts are positive, because with credits the totals of several spellings can cancel out and one of them be the whole by chance; `OneSpellingIsWhole` needs no such limit and `KeyIsWholeIff` only that there are no credits.
