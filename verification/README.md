# Hedwig mail pipeline: model and proofs

Hedwig is a shared-inbox backend. API calls, Celery workers, beat sweeps and provider webhooks all step one database.
This project models that pipeline as state machines over their commits, and proves what every run of them keeps.

How fine the steps are differs by component. In the send machine, `Webhook`, `DeliveryRuns`, `Ingest` and `AttachmentGc`
each committed transaction, single-row save or conditional UPDATE is one atomic step; workers interleave at will, and
tasks are duplicated, redelivered, retried and crashed. In `Threading` reading a thread and writing it back are apart; the
other steps of a filing are one. `Delivery`, `SendTask`, `BulkState`, `OutboundSize`, `Rules` and `LastSeen` take one call
after the other, each to its end; where calls of theirs can overlap or stop halfway the effect is stated next to them, by
`DeliveryRuns` for delivery events, by the send machine for `SendTask`, by `OutboundSize.OverlapIff` for two updates of one
draft, and by `BulkState.LateBatch` and `BulkState.FailedBatchWithdraws` for a batch.

Each component has three layers. Functions on values say what one transaction does. Classes (`Store`, `Table`,
`Mailroom`, `Ledger`, `Inbound`, `Mailbox`, `Messages`, `Attachments`, `Middleware`) hold the fields the code updates in
place, with methods proved equal to those functions. Lemmas state what the functions guarantee over whole runs.

| files | component |
|---|---|
| `SendModel`, `SendMachine` | rows of the outbound pipeline; all steps of API, beat and send workers |
| `SendSafety`, `SendExclusive` | coupling of attempt and message; one worker per attempt; one confirmation per message |
| `SendCopies`, `SendStranded` | what a single copy of each task buys; attempts nobody will finish |
| `SendSlots`, `SendSchedule` | the daily send counter; scheduled sends |
| `SendTask`, `SendStore` | one send task as a function, tied to the machine's steps; the pipeline's methods |
| `SendProgress` | runs in which due sends go out, cancellations take hold and retries run out |
| `SendWitnesses` | concrete runs that break a condition |
| `Webhook`, `Ingest` | webhook claims; inbound storage, quota and usage |
| `Delivery`, `DeliveryRuns` | delivery events one call at a time; the same calls overlapping, interrupted and retried |
| `Threading`, `Subject` | threads; subject normalization |
| `Rules`, `Forwarding` | the rule loop; networks of forwarding mailboxes |
| `AttachmentGc`, `OutboundSize` | stored objects and their cleanup; attachment rows and message sizes |
| `BulkState`, `Tokens`, `LastSeen` | batched state changes; the search tokenizer; the last-seen cache |

## Where the code falls short of its documentation

Each of these is kept in the model and stated with the exact condition under which the promise holds, and with a run or
an input that breaks it.

- `mark_attempt_failed` (hedwig/tasks.py:73-93) marks FAILED an attempt that another worker has reserved meanwhile, so
  two workers can be in the provider call for one attempt: `SendExclusive.ExclusiveIff`, `SendWitnesses.TwoWorkersAtOnce`,
  `SendWitnesses.SentTwice`.
- An exception while a confirmation is saved (providers/postmark.py:597-616) reaches the same function, which marks
  FAILED what the provider has accepted; the message can then go out again, with a single worker:
  `SendExclusive.OnceIff`, `SendExclusive.ExposedIff`, `SendExclusive.OwnMarkHarmsIff`, `SendWitnesses.OneWorkerSendsTwice`. With one copy of each
  task and every confirmation saved, no mark does harm: `SendCopies.OneCopySuffices`.
- A storage outage before the call leaves the attempt SENDING, and the retry it schedules is skipped
  (providers/sending.py:59-62, hedwig/tasks.py:60-65): `SendStranded.OutageStrands`, `SendStranded.StrandedForever`,
  `SendWitnesses.StrandedByOutage`.
- `promote_draft_to_send` saves without scheduled_at (hedwig/manager.py:509-518) and `_enqueue_send` goes by the time the
  request has loaded (hedwig/views.py:99), and a draft edit is saved without looking at the status again, so a message
  scheduled meanwhile goes out at once: `SendSchedule.PunctualIff`, `SendWitnesses.PromotedWithOldTime`,
  `SendWitnesses.ScheduledTooLate`.
- `release_send_slot` gives back a slot of the day of the release (providers/manager.py:114), not of the reservation:
  `SendSlots.BalanceIff`, `SendWitnesses.MidnightRelease`.
- `cancel_scheduled_send` reads PENDING without a lock (hedwig/manager.py:560): `SendSafety.UnlockedCancelIff`,
  `SendWitnesses.CancelLandsLate`.
- A cancelled send can never be promoted again, since promotion inserts attempt number 1 a second time
  (hedwig/manager.py:536, hedwig/models.py:773-776): `SendSafety.WithdrawnForever`.
- A slow webhook worker shares its row with the next claimant, and a manual replay or a late failure reopens a redacted
  row: `Webhook.ExclusiveIff`, `Webhook.SlowWorkerIsJoined`, `Webhook.ReadableIff`, `Webhook.RedactedThenReplayed`.
- Repeated deliveries of one event that resolve to several domains make the suppression list depend on their order:
  `Delivery.ConvergeIff`.
- `create_delivery_event` stores its event row before the status, the recipients and the suppression
  (providers/ingest.py:402-455), so a worker that dies in between leaves them undone for good: the retry finds the row and
  returns. `DeliveryRuns.RunConvergesIff`, `DeliveryRuns.InterruptedForGood`, `DeliveryRuns.RepetitionsNeverHelp`.
- Two workers saving one message row at once can lower its rank or replace a terminal status: `DeliveryRuns.RankFallsIff`,
  `DeliveryRuns.TerminalFallsIff`, `DeliveryRuns.OverlapKeepsMaximumIff`.
- An inbound message whose Message-ID already has a row in the mailbox is never stored: `Ingest.TakenMessageIdBlocks`.
- Reconciling used_bytes sums, reads and writes without a lock, and forgets what commits in between; a message deleted
  twice at once is taken off twice: `Ingest.LateRecountIff`, `Ingest.LateRecountForgetsIngest`,
  `Ingest.SecondDeletionIff`. It also takes used_bytes over the quota where outbound mail has: `Ingest.QuotaIff`.
- `update_thread_for_message` documents one caller, under the mailbox lock, but `create_outbound_message`
  (hedwig/manager.py:249) calls it without: `Threading.LockedUniqueIff`, `Threading.LateLookupIff`,
  `Threading.UnlockedSendsDouble`, `Threading.TallyIff`, `Threading.UnlockedSendsLoseParticipants`. A thread marked unread
  meanwhile loses its mark: `Threading.UnreadIff`.
- `_reconcile_draft_attachments` sums the rows it has read (hedwig/manager.py:466-472) without a lock on the message, so
  of two overlapping updates of a draft the second misses what the first adds: `OutboundSize.OverlapIff`,
  `OutboundSize.TwoAddsLoseASize`.
- A bulk change that fails has cancelled its scheduled sends all the same (hedwig/views.py:553-555):
  `BulkState.FailedBatchWithdraws`.
- An object stays in storage for good when a callback is lost between commit and enqueue, a transaction rolls back after
  an upload, or a delete fails, and when a second worker in one attempt saves its upload over the first's
  (providers/sending.py:52-80): `AttachmentGc.NoGarbageIff`, `AttachmentGc.TwoWorkersLoseAnObject`.

## Model

| member | source | states |
|---|---|---|
| SendSafety.BasicStep | hedwig/tasks.py:21-93 | every step of API, sweep, broker and worker keeps the coupling of attempts, messages and workers |
| SendSafety.CouplingHolds | hedwig/manager.py:543-575 | in every reachable state PENDING implies a QUEUED message, CANCELLED is exactly a DRAFT message without provider id, SENT implies a provider id and a rank of at least SENT |
| SendSafety.UnlockedCancelIff | hedwig/manager.py:555-574 | the writes of a cancellation keep the coupling exactly if no worker has reserved the attempt by then; SendWitnesses.CancelLandsLate reaches the other case |
| SendSafety.WithdrawnForever | hedwig/manager.py:543-575 | a cancelled attempt is never handed to a worker again, by any run, and its draft can never be promoted |
| SendSafety.WorkerAttempts | hedwig/tasks.py:53-93 | a worker changes an attempt only by reserving it, by starting its own call, or by its own outcome writes |
| SendExclusive.OneHolder | hedwig/tasks.py:53-70 | two workers between reserve and outcome of one attempt are the same worker |
| SendExclusive.LateMarkBreaks | hedwig/tasks.py:73-93 | a mark_attempt_failed that finds the attempt held by another worker always breaks exclusivity |
| SendExclusive.ExclusiveIff | hedwig/tasks.py:21-93 | a step keeps one worker per attempt if and only if it is not such a late mark |
| SendExclusive.AtMostOneWorker | hedwig/tasks.py:21-70 | from an empty system, any duplicates, redeliveries, crashes and retries without late marks: one worker per attempt, and nobody else can reserve it |
| SendExclusive.OnceIff | hedwig/tasks.py:73-93 | a step keeps at most one provider confirmation per message if and only if it does not mark FAILED an attempt the provider has confirmed |
| SendExclusive.OwnMarkHarmsIff | hedwig/tasks.py:45-50 | a mark under the latest reservation does harm exactly if the provider has confirmed the message |
| SendExclusive.ExposedIff | providers/postmark.py:589-616 | a step puts a worker in the position to undo a confirmation by its own mark if and only if it is an exception while that confirmation is saved |
| SendExclusive.AnsweredStep | providers/postmark.py:589-616 | every step keeps a worker that saves a confirmation one the provider has given |
| SendExclusive.UnsettledStep | hedwig/tasks.py:60-70 | every step keeps an attempt with a worker under its latest reservation from saying SENT |
| SendExclusive.ConfirmedAtMostOnce | providers/postmark.py:589-616 | without harmful marks the provider confirms each message at most once in any run, exceptions in the saves included, and a confirmed message cannot be reserved again |
| SendExclusive.ConfirmedForever | hedwig/tasks.py:60-65 | a SENT attempt stays SENT and no worker ever holds it again |
| SendStranded.StrandedForever | hedwig/tasks.py:43-65 | an attempt left SENDING with no writer stays so in every run; its retry is skipped |
| SendStranded.OutageStrands | providers/sending.py:56-62 | a storage outage strands its attempt whenever the message's task is with one worker only |
| SendStranded.LateMarkRescues | hedwig/tasks.py:73-93 | with a second worker about to mark the attempt it is not stranded, and its mark opens it again |
| SendCopies.OneCopyIff | hedwig/tasks.py:96-119 | a step keeps one copy of each message's task if and only if it is not a redelivery of a running task, or a callback or sweep of a message whose task is outstanding |
| SendCopies.OneCopySuffices | hedwig/tasks.py:21-93 | in any run with one copy and every confirmation saved: no harmful mark, one worker per attempt, one confirmation per message |
| SendSlots.BalanceIff | providers/manager.py:89-118 | a step keeps a day's sent_count equal to confirmed sends, held slots and lost slots exactly if it is not a release misdated for that day |
| SendSlots.TallyStep | providers/sending.py:23-36 | every step keeps failed_count equal to the failure verdicts less those not recorded yet or lost in a crash |
| SendSlots.SlotConservation | providers/sending.py:88-135 | both balances hold for every day after any run without misdated releases |
| SendSlots.OneDayConservation | providers/sending.py:112-135 | from an idle system, calls ending in success, Transient or Permanent before midnight: the counter is the confirmed sends plus the calls between reserve and outcome |
| SendSlots.ClampNeverFires | providers/manager.py:110-118 | in a balanced state a release of today's slot finds a positive counter |
| SendSlots.WithinLimit | providers/manager.py:102-107 | no day's sent_count ever exceeds the largest limit checked |
| SendSlots.OneDayNotMisdated | providers/manager.py:114-118 | a run that stays within one day has no misdated release |
| SendSlots.FirstComeFirstServed | providers/manager.py:102-107 | of any workers that ask one after the other, with some of the day's limit used up, exactly the first ones within the limit get a slot and every later one is refused |
| SendSchedule.PunctualIff | hedwig/views.py:84-104 | a step keeps every send on time if and only if it is no promotion by an earlier time than the stored one and no late draft save that postpones a send under way |
| SendSchedule.NeverEarly | hedwig/tasks.py:96-119 | a run without such steps reserves no attempt before its message's scheduled_at |
| SendSchedule.FreshReadsNeverHurry | hedwig/manager.py:509-518 | promotions by the stored time, and saves before there is an attempt, are no such steps |
| SendWitnesses.TwoWorkersAtOnce | hedwig/tasks.py:45-50 | a run from the empty system that puts two workers into the provider call for one attempt |
| SendWitnesses.SentTwice | hedwig/tasks.py:45-50 | a run after which the provider has confirmed one message twice |
| SendWitnesses.OneWorkerSendsTwice | hedwig/tasks.py:48-50 | a run with a single worker after which the provider has confirmed one message twice |
| SendWitnesses.CancelLandsLate | hedwig/manager.py:560-574 | a run in which a worker holds the attempt that a cancellation withdraws |
| SendWitnesses.PromotedWithOldTime | hedwig/views.py:99-104 | a run in which a draft scheduled during its promotion goes out at once |
| SendWitnesses.ScheduledTooLate | hedwig/manager.py:442-449 | a run in which a draft edit lands after the promotion and its message goes out before its time |
| SendWitnesses.StrandedByOutage | providers/sending.py:56-62 | a run with one outage after which the attempt is stranded |
| SendWitnesses.MidnightRelease | providers/manager.py:110-118 | a run without crashes after which the first day's counter is wrong |
| SendProgress.ScheduledSendGoesOut | hedwig/views.py:84-104 | from any state, a composed send is enqueued by its callback exactly if it is due at once, and by the next sweep exactly if it is due by then |
| SendProgress.PromotedDraftGoesOut | hedwig/manager.py:474-541 | a promoted draft is queued with a pending attempt, and enqueued in the same way |
| SendProgress.SweptIfDue | hedwig/tasks.py:96-119 | a sweep enqueues a queued message with a pending attempt exactly once its time has come, and no other |
| SendProgress.PublishedIfDue | hedwig/views.py:84-104 | a callback runs once, and enqueues its message exactly if the time it has read has come |
| SendProgress.DeliveredIsReserved | hedwig/tasks.py:53-70 | an enqueued send delivered to an idle worker is reserved by it |
| SendProgress.CancelledInTime | hedwig/manager.py:543-575 | a cancellation before that makes the message an unscheduled draft, and no later sweep enqueues it |
| SendProgress.CancelledTooLate | hedwig/manager.py:560-562 | one after it changes nothing |
| SendProgress.EarlyIff | hedwig/tasks.py:53-70 | the machine records as early exactly a reservation before the stored time |
| SendProgress.CrashReturnsTask | hedwig/tasks.py:21-50 | a crashed worker is idle and its task is queued again |
| SendProgress.EventWritesStatus | providers/ingest.py:438-442 | an event writes its status on a confirmed message and on no other |
| SendProgress.UnansweredFourTimes | hedwig/tasks.py:21-47 | a message whose provider never answers is reserved and tried four times, then its task is gone and it has failed |
| SendTask.MachineAgrees | hedwig/tasks.py:21-50 | the machine's steps for a delivery nothing interrupts leave the rows and the queue that the task alone leaves, in every course of events |
| SendTask.TaskResults | hedwig/tasks.py:30-50 | which result occurs when, by the attempt, the permission, the day's count and limit, the storage, the provider's answer and the saves |
| SendTask.TaskOutcomes | hedwig/tasks.py:21-50 | by result: the attempt, the message and its provider id; an unforeseen exception leaves FAILED even what the provider has accepted; no other message is touched |
| SendTask.TaskCounts | providers/sending.py:88-135 | sent_count grows exactly by a confirmed send or an unforeseen exception, failed_count exactly by a limit rejection or a permanent refusal |
| SendTask.ReachedCounts | providers/sending.py:119-134 | a Transient or Permanent error gives the slot back, any other exception keeps it |
| SendStore.Store.CreateOutboundMessage | hedwig/manager.py:173-279 | a queued message and its pending attempt, nothing else |
| SendStore.Store.PromoteDraftToSend | hedwig/manager.py:474-541 | succeeds exactly if the message has no attempt yet; a failure rolls back |
| SendStore.Store.EnqueueSend | hedwig/views.py:84-104 | a task exactly if the send is unscheduled or due |
| SendStore.Store.CancelScheduledSend | hedwig/manager.py:543-575 | cancels exactly a queued message with a pending attempt; otherwise changes nothing |
| SendStore.Store.ReserveAttemptForSending | hedwig/tasks.py:53-70 | reserves exactly a PENDING or FAILED attempt |
| SendStore.Store.MarkAttemptFailed | hedwig/tasks.py:73-93 | fails attempt and message unless the attempt is SENT |
| SendStore.Store.DispatchDueScheduledSends | hedwig/tasks.py:96-119 | one task for each due attempt and none for any other |
| SendStore.Store.ReserveSendSlot | providers/manager.py:89-108 | takes a slot exactly while the day's count is below the limit; under the effective limit of a domain and its provider, exactly while it has reached neither nonzero cap |
| SendStore.Store.ReleaseSendSlot | providers/manager.py:110-118 | gives back one slot of today, stopping at zero |
| SendStore.Store.RecordSendFailure | providers/sending.py:23-36 | adds one to today's failed_count |
| SendStore.Store.MarkSendFailed | providers/postmark.py:747-754 | fails the attempt and its message |
| SendStore.Store.SendMessage | providers/postmark.py:546-616 | which answers and failed saves raise what, and the rows each leaves |
| SendStore.Store.TrySend | providers/sending.py:119-122 | outcome and rows of storing the attachments and calling the provider |
| SendStore.Store.SendReserved | providers/sending.py:119-134 | the slot is given back on a Transient or Permanent error and on no other |
| SendStore.Store.SendWithProvider | providers/sending.py:88-135 | sent_count grows by a confirmed send or an unforeseen exception, failed_count by a limit rejection or a permanent refusal |
| SendStore.Store.Handle | hedwig/tasks.py:43-50 | the retry, the mark or neither, by what was raised |
| SendStore.Store.SendEmailMessageTask | hedwig/tasks.py:21-50 | outcome, both counters, rows and retry of one uninterrupted task, unforeseen exceptions included |
| SendStore.DailySendLimit | providers/sending.py:13-20 | the limit stops a send exactly when a nonzero cap of domain or provider is reached |
| Webhook.SweptIsClaimable | providers/tasks.py:154-177 | in every reachable state a row the stale sweep enqueues can be claimed |
| Webhook.ExclusiveIff | providers/tasks.py:48-70 | a step keeps one worker per row if and only if it is not a claim or replay during another worker's work |
| Webhook.PromptNeverOverruns | providers/tasks.py:45-62 | while holders are inside the stale window only a manual replay can overrun them |
| Webhook.PromptRunsAreSafe | providers/tasks.py:29-90 | with prompt holders and no replay: one worker per row, and no claimable row without its payload |
| Webhook.ReadableIff | providers/tasks.py:190-211 | exactly which steps make a redacted row retryable again |
| Webhook.SlowWorkerIsJoined | providers/tasks.py:48-65 | for all settings, a holder that outlives its window shares the row |
| Webhook.RedactedThenReplayed | providers/views.py:123-143 | for all settings, a run after which a redacted row can be claimed |
| Webhook.LostTaskIsSwept | providers/tasks.py:154-177 | a webhook whose first task is lost is enqueued again exactly once the stale window is over, attempts permitting |
| Webhook.BrokenTaskIsSwept | providers/tasks.py:154-177 | so is one whose worker died after its claim or whose processing raised |
| Webhook.FinishedIsNotSwept | providers/tasks.py:164-168 | a processed or ignored one never is |
| Webhook.SweepGivesUp | providers/tasks.py:165-168 | the sweep gives up exactly after as many lost claims as the settings allow |
| Webhook.ReplayReopens | providers/views.py:123-143 | a replay enqueues the row once and lets any worker claim it, with the attempts it has had |
| Webhook.FinishedIsRedacted | providers/tasks.py:190-211 | the payload of a finished webhook is blanked exactly once its retention is over |
| Webhook.Table.Create | providers/views.py:220-298 | duplicate exactly if the provider has sent the event id before, and then nothing is written or enqueued; otherwise one row, enqueued exactly if its kind is known |
| Webhook.Table.ClaimRow | providers/tasks.py:48-70 | the conditional UPDATE: claims exactly a claimable row |
| Webhook.Table.Replay | providers/views.py:123-143 | the row is pending and unlocked again and enqueued once |
| Webhook.Table.RetryStale | providers/tasks.py:154-177 | enqueues once each row that is neither processed nor ignored, has attempts left and has been left alone for more than the stale window, and no other |
| Webhook.Table.RedactOld | providers/tasks.py:190-211 | blanks exactly the expired rows and never a retryable one |
| Delivery.FoldRanked | providers/ingest.py:393-451 | calls one at a time, each run to its end: for all events the fold leaves the maximum rank per message and recipient and the union of event keys |
| Delivery.FoldSummary | providers/ingest.py:393-464 | calls one at a time: and the union of suppressions, where several domains of one event are suppressed anyway |
| Delivery.EventsConverge | providers/ingest.py:393-464 | calls one at a time: two logs of the same such events in any order and repetition leave the same ranks, suppressions and keys |
| Delivery.RanksConverge | providers/ingest.py:438-451 | calls one at a time: ranks and keys agree for any two logs of the same events |
| Delivery.ConvergeIff | providers/ingest.py:402-464 | calls one at a time: all orders and repetitions agree if and only if, of each suppressing event delivered for several domains, every pair is suppressed already or by other events |
| Delivery.RanksRise | providers/ingest.py:438-451 | calls one at a time: no rank ever falls, and a recipient's rank stays at most the message's |
| Delivery.TerminalStays | providers/ingest.py:364-378 | calls one at a time: a terminal status is never replaced |
| Delivery.FirstTerminalDecides | providers/ingest.py:438-442 | calls one at a time: among terminal ranks the first event decides the status |
| Delivery.RepeatOrderIff | providers/ingest.py:402-417 | calls one at a time: when a repeated event id that resolves to two domains makes the order visible |
| Delivery.MessageTold | providers/ingest.py:355-442 | calls one at a time: by the kinds of the events, the first bounce, complaint or failure is final; else clicked, else opened, else delivered, else as before |
| Delivery.RecipientTold | providers/ingest.py:444-450 | the same for each recipient, by the events that name the address |
| Delivery.AddressSuppressedIff | providers/ingest.py:452-464 | an address is put on the list exactly by a bounce, a complaint or an unsubscription of its own |
| Delivery.Ledger.CreateDeliveryEvent | providers/ingest.py:393-464 | a call that runs to its end undisturbed is one step of the fold, and reports whether an event row was stored |
| DeliveryRuns.OneCallIsOneApply | providers/ingest.py:393-464 | the five steps of one worker, undisturbed, leave what one step of the fold leaves |
| DeliveryRuns.RunConvergesIff | providers/ingest.py:402-464 | for every run of workers that overlap, die between any two commits and retry: the log is what calls one at a time leave if and only if the last save that wrote is of an event no stored one outranks, and every stored event has raised its recipients and noted its suppression, or others have done as much |
| DeliveryRuns.UnoverwrittenRunConvergesIff | providers/ingest.py:402-464 | where no save overwrites a higher rank: if and only if every delivery that stored its event row ran to its end or other events supply what it left undone |
| DeliveryRuns.UndisturbedRunConverges | providers/ingest.py:402-464 | overlapping workers of whom none dies and none overwrites a higher rank leave what calls one at a time leave |
| DeliveryRuns.RankFallsIff | providers/ingest.py:440-442 | a step lowers the message's rank if and only if it is a save by a worker that loaded the row before it was raised further; none lowers a recipient's |
| DeliveryRuns.TerminalFallsIff | providers/ingest.py:440-442 | a step replaces a terminal status if and only if it is such a save of another status |
| DeliveryRuns.RecipientsBelowMessage | providers/ingest.py:444-450 | in any run where no save overwrites a higher rank, a recipient's rank stays at most the message's |
| DeliveryRuns.RepetitionsNeverHelp | providers/ingest.py:416-417 | once the event row is stored, no repetition and no retry of it changes anything |
| DeliveryRuns.InterruptedForGood | providers/tasks.py:80-90 | a run in which a worker dies after storing the event row, and no retry ever gives the message its rank |
| DeliveryRuns.RaceKeepsMaximumIff | providers/ingest.py:440-442 | two saves by workers that loaded the same status keep the larger rank exactly if the later is no raise to a lower one |
| DeliveryRuns.OverlapKeepsMaximumIff | providers/ingest.py:402-442 | the run of two workers whose steps overlap ends with the rank of the fold exactly if so |
| Ingest.AtMostOneRow | hedwig/models.py:590-600 | in any interleaving, saves that give a stored message its provider id or Message-ID included, no two live messages share a provider id, or a Message-ID in one mailbox |
| Ingest.CommitStoresIff | providers/ingest.py:240-345 | a mail is stored and charged exactly if its mailbox has room and neither its provider id nor, in its mailbox, its Message-ID is taken; else nothing changes |
| Ingest.BeginsIff | providers/ingest.py:212-231 | the first read turns away exactly a mail that has an inbound row of its provider and id, or, without an id, of its mailbox and Message-ID |
| Ingest.BothMailboxesGetIt | hedwig/models.py:590-594 | one mail to two mailboxes is stored in both, whichever worker commits first |
| Ingest.SizesAddUp | providers/ingest.py:236-260 | declared and stored totals are sums over the parts, a part that does not decode weighing what it declares |
| Ingest.OutboundIff | hedwig/models.py:590-600 | an outbound message is stored exactly if no live row has its ids |
| Ingest.NamedIff | providers/postmark.py:597-606 | an id is saved on a row exactly if no other live row has it |
| Ingest.IngestedOnce | providers/ingest.py:210-352 | any number of workers on one message, among any other mail, sends, edits and deletions of other messages: at most one commits it |
| Ingest.RaceStoresOnce | providers/ingest.py:210-352 | workers racing on one message alone leave its one row and its one charge, or nothing |
| Ingest.LosersChangeNothing | providers/ingest.py:248-260 | once a row carries the identity, in any company, no run commits the mail and a worker that tries changes nothing |
| Ingest.TakenMessageIdBlocks | hedwig/models.py:590-594 | a mail whose Message-ID is taken in its mailbox never commits |
| Ingest.ExactIff | hedwig/signals.py:10-17 | a step keeps used_bytes equal to the stored sizes exactly if it is no outbound insert or resize in that mailbox |
| Ingest.UsageExact | providers/ingest.py:318-345 | in inbound-only runs used_bytes is the sum of the stored sizes |
| Ingest.UsageBounded | hedwig/tasks.py:158-172 | with outbound mail but no edits it stays between zero and that sum, and reconciling restores equality |
| Ingest.ClampNeverFires | hedwig/signals.py:10-17 | where the counter is exact a deletion never meets the clamp |
| Ingest.LateRecountIff | hedwig/tasks.py:161-171 | with steps between sum, reading and write: a counter that is written ends exact exactly if the commits, deletions, sends and resizes since the sum weigh nothing on balance, one left alone exactly if they weigh what was charged since the reading |
| Ingest.InboundRecountIff | hedwig/tasks.py:161-171 | with an exact counter and inbound mail only, exactly if what came between sum and reading weighs nothing or is made up for before the write |
| Ingest.LateRecountForgetsIngest | hedwig/tasks.py:168-171 | an ingest before the reading, or before the write of a counter that was off, leaves it short by exactly its stored size; one after the reading of an exact counter is kept |
| Ingest.SecondDeletionIff | hedwig/signals.py:10-17 | a second deletion of one message leaves the counter exact exactly if the message weighed nothing or the mailbox is empty |
| Ingest.QuotaIff | hedwig/tasks.py:158-172 | a step takes used_bytes over the quota by more than the undeclared excess of one message if and only if it is the reconciling task finding that much stored |
| Ingest.QuotaRespected | providers/ingest.py:240-261 | in every concurrent run of ingests, deletions, sends, edits and passes of the reconciling task that find no more stored than that, used_bytes exceeds the quota by at most the undeclared excess of one message |
| Ingest.Mailroom.FindExisting | providers/ingest.py:212-231 | finds exactly a stored inbound message by provider id, else by Message-ID |
| Ingest.Mailroom.CreateInboundMessage | providers/ingest.py:210-352 | which of the four outcomes occurs when, by the fields of the rows and the quota, and that all but one change nothing |
| Ingest.Mailroom.DeleteMessage | hedwig/signals.py:10-17 | the row goes and its size is taken off the counter, not below zero |
| Ingest.Mailroom.ReconcileUsedBytes | hedwig/tasks.py:158-172 | every counter becomes exact; none is reported exactly if none was off |
| Threading.TallyIff | providers/ingest.py:167-206 | a filing keeps every count and participant list right exactly if it does not write back a participant list extended meanwhile |
| Threading.UnreadIff | providers/ingest.py:186-206 | a step takes the unread mark off a thread if and only if it writes back a thread read before an inbound message marked it |
| Threading.LockedKeepsUnread | providers/ingest.py:129-207 | under the mailbox lock the mark stays |
| Threading.DatedByItsLastMessage | providers/ingest.py:174-195 | in every run a thread is dated by the message filed in it last |
| Threading.FiledInThread | providers/ingest.py:186-206 | under the lock a filing marks, roots, dates, counts and extends its thread and leaves every other alone |
| Threading.FiledInNewThread | providers/ingest.py:175-206 | a new thread has the subject, addresses, id and date of its first message, and is unread |
| Threading.RootedStep | providers/ingest.py:177-198 | a thread is only ever rooted at the id of one of its own messages |
| Threading.CitationDecides | providers/ingest.py:140-165 | a message that cites known mail joins a thread holding a cited message; otherwise the subject decides |
| Threading.FindsIff | providers/ingest.py:129-167 | the chosen thread; else the latest rooted at a cited message; else the latest that holds one; else the latest with the subject; else none |
| Threading.DraftOpensThread | hedwig/manager.py:474-500 | a draft opens a read, rootless thread; its promotion gives the draft the Message-ID and the thread no root |
| Threading.RepliesJoinTheirParent | providers/ingest.py:129-207 | in every serial run a reply to one message goes to that message's thread |
| Threading.LockedUniqueIff | providers/ingest.py:129-185 | under the mailbox lock a step, with any headers or chosen thread, keeps one thread per subject exactly if it is not a draft for a subject that has one |
| Threading.SerialUniqueIff | providers/ingest.py:129-185 | a run under the lock ends with one thread per subject exactly if it saved no such draft |
| Threading.LateLookupIff | hedwig/manager.py:222-249 | without the lock a caller that found no thread opens a second one exactly if a step since its lookup has opened the first |
| Threading.UnlockedSendsDouble | hedwig/manager.py:222-249 | two sends of one new conversation without the lock open two threads |
| Threading.UnlockedSendsLoseParticipants | hedwig/manager.py:222-249 | two sends into one thread without the lock lose a participant |
| Threading.SameThreadIff | providers/ingest.py:156-185 | in serial runs without header ids, chosen threads and drafts, two messages share a thread exactly if their normalized subjects are equal and not empty |
| Threading.Mailbox.First | providers/ingest.py:146-165 | answers a matching thread with the latest last_message_at, or none if there is none |
| Threading.Mailbox.Find | providers/ingest.py:140-165 | chosen thread, then root, then member, then subject |
| Threading.Mailbox.UpdateThreadForMessage | providers/ingest.py:129-207 | the method is one locked step |
| Subject.NormalizeSubject | providers/ingest.py:71-77 | the loop computes the normalized subject |
| Subject.NormalizedShape | providers/ingest.py:40-77 | the result has no prefix and no outer whitespace, and normalizing is idempotent |
| Subject.PrefixIgnored | providers/ingest.py:40 | a reply or forward prefix in any case and spacing does not change the normalized subject |
| Subject.PrefixesIgnored | providers/ingest.py:71-77 | nor does any number of them |
| Subject.OnlyPrefixesGo | providers/ingest.py:40-77 | the normalized subject is the trimmed subject without the prefixes at its start, all of them and nothing else |
| Rules.FaithfulUnique | hedwig/rules.py:100-113 | the specification of a pass determines which rules run |
| Rules.LabelsCollected | hedwig/rules.py:80-83 | the labels are the old ones and those of the rules that ran |
| Rules.LastMoveWins | hedwig/rules.py:85-91 | the folder is that of the last valid move that ran, else the original |
| Rules.ForwardsPerRule | hedwig/rules.py:93-95 | a pass forwards once for each rule that ran and names an address, in the order of the rules |
| Rules.RunsIff | hedwig/rules.py:97-113 | a rule runs exactly if it matches and no rule that ran before it said stop or refused to continue |
| Rules.NoConditionMatchesNothing | hedwig/rules.py:40-41 | no condition matches nothing, an unsupported one alone everything |
| Rules.SenderNarrows | hedwig/rules.py:43-48 | adding the condition narrows the match by exactly whether the sender mentions the text, in whatever case |
| Rules.SubjectNarrows | hedwig/rules.py:50-55 | the same for the subject |
| Rules.RecipientNarrows | hedwig/rules.py:57-59 | the same for some recipient |
| Rules.CopyNarrows | hedwig/rules.py:61-63 | the same for some copied recipient |
| Rules.AttachmentNarrows | hedwig/rules.py:65-67 | the same for having or lacking attachments |
| Rules.LabelNarrows | hedwig/rules.py:69-72 | the same for carrying the label |
| Rules.FolderNames | utils/enums.py:62-68 | the six folder names a move knows, and that no other name moves |
| Rules.RulesAfterStopIrrelevant | hedwig/rules.py:97-113 | appending rules behind a stop changes nothing |
| Rules.SecondPassChangesNothing | hedwig/rules.py:100-113 | without has_label conditions a second pass leaves labels and folder alone |
| Rules.Inbound.ApplyActions | hedwig/rules.py:77-97 | the message after one rule, and whether it stops the pass |
| Rules.Inbound.EvaluateRules | hedwig/rules.py:100-113 | runs exactly the matching rules up to the first that stops, each matched against what its predecessors left |
| Forwarding.PrintParses | hedwig/rules.py:167-185 | int() reads back what str() wrote, for every natural number |
| Forwarding.DepthSurvivesTheWire | providers/postmark.py:94-100 | the depth header is read back unchanged whatever silent headers relays add |
| Forwarding.IngestSpends | hedwig/rules.py:119-174 | an ingest forwards no more than its depth's budget allows |
| Forwarding.SchedulesAreFinite | providers/ingest.py:347-350 | in any order of ingestion the worklist empties |
| Forwarding.ForwardingDiesOut | hedwig/rules.py:31 | one external message causes at most k + k^2 + k^3 forwards in any network of fan-out k |
| Forwarding.ChainsAreShort | hedwig/rules.py:139-141 | no mail in the network has more than MAX_FORWARD_DEPTH forwards behind it |
| Forwarding.ForwardsExactly | hedwig/rules.py:132-174 | below depth 3 an ingest forwards once to every target but its sender, in whatever case, each arriving one hop and one step of depth on; at depth 3 nothing |
| Forwarding.BoundIsReached | hedwig/rules.py:31 | with k targets at every ingest and all arriving, a mail without a depth header ends with exactly k + k^2 + k^3 forwards |
| Forwarding.BoundIsTight | hedwig/rules.py:31 | for every k there is such a network and such a run |
| Forwarding.EveryQueueDrains | providers/ingest.py:347-350 | from any queue some order of ingestion leaves nothing to ingest |
| Forwarding.PaddedParses | hedwig/rules.py:177-185 | int() takes a sign and blanks around a printed number |
| AttachmentGc.SafeRun | hedwig/signals.py:20-34 | every run keeps references to stored objects that nobody is about to delete |
| AttachmentGc.NeverDeletesReferenced | hedwig/tasks.py:122-137 | no cleanup deletes a referenced object, and every committed reference finds its object |
| AttachmentGc.ReferencesNeverReturn | hedwig/rules.py:188-218 | an object nobody references and nobody has just stored never gets a reference again: ingests insert rows for what they store and copies of those |
| AttachmentGc.NoGarbageIff | hedwig/signals.py:20-34 | a step leaves an object nothing will clean up exactly if it is a rollback or an ended worker after an upload, a save over the last reference to an object that no cleanup is due for, or the last callback lost or delete failed for an unreferenced object |
| AttachmentGc.QuiescentMeansClean | providers/ingest.py:318-350 | barring those, once nothing is pending the stored objects are exactly the referenced ones |
| AttachmentGc.ForwardSharesTheObject | hedwig/rules.py:188-218 | an ingest that forwards its message commits the row and its copy with one object |
| AttachmentGc.LastReferenceTakesTheObject | hedwig/tasks.py:122-137 | a deleted row takes its object with it exactly if no other row references it |
| AttachmentGc.TwoWorkersLoseAnObject | providers/sending.py:52-80 | a run in which two workers of one attempt upload the same row and the first's object stays unreferenced with nothing pending |
| AttachmentGc.Attachments.DeleteRow | hedwig/signals.py:20-34 | a deleted row enqueues the cleanup of its object, if it has one |
| AttachmentGc.Attachments.DeleteUnreferenced | hedwig/tasks.py:122-137 | the object goes exactly if no row references it and storage agrees |
| OutboundSize.SizeIsTheSum | hedwig/manager.py:442-472 | in every run a message's size is its own plus that of its rows, and it is flagged exactly if it has one |
| OutboundSize.UpdateIsExact | hedwig/manager.py:452-472 | a draft update leaves exactly the referenced rows, untouched, and one new row per new item |
| OutboundSize.IdsStayDistinct | hedwig/manager.py:455-464 | a referenced id keeps one row |
| OutboundSize.SecondWritesItsOwn | hedwig/manager.py:465-472 | of two overlapping updates the second leaves the size and flag it would leave alone |
| OutboundSize.OverlapIff | hedwig/manager.py:452-472 | two overlapping updates leave the size right if and only if what the first alone drops weighs what it adds |
| OutboundSize.TwoAddsLoseASize | hedwig/manager.py:465-472 | two devices that each add a file to an empty draft leave the size of the second alone |
| OutboundSize.UploadKeepsSizes | providers/sending.py:48-85 | uploading changes no size, wherever it breaks off |
| OutboundSize.UploadStores | providers/sending.py:48-85 | uploading succeeds exactly if every row can be stored; each row up to the first that cannot has its own object and the size of its content |
| OutboundSize.RetryConverges | providers/sending.py:48-85 | a try that gets through leaves the rows one clean try would have left |
| OutboundSize.ForwardCarriesAll | hedwig/rules.py:188-218 | a forward carries each attachment of its source with name, size and stored object, and weighs their sum |
| OutboundSize.ReceivedAndForwarded | hedwig/rules.py:188-218 | a received message and its forward each have a row for every attachment; the text weighs only in the first |
| OutboundSize.NewRows | hedwig/manager.py:590-605 | each new row at its place, with its own id and decoded size |
| OutboundSize.NewRowsDecoded | hedwig/manager.py:577-605 | a new row weighs what its content decodes to, nothing if it does not decode, and has a name in any case |
| OutboundSize.ItemsInOrder | hedwig/manager.py:460-464 | the new items of an update are its additions in their order |
| OutboundSize.CopyRows | hedwig/rules.py:197-210 | each copy has its own id and keeps name, size and stored object of its source row |
| OutboundSize.Attachments.Stage | hedwig/manager.py:577-610 | rows appended in order, flag set, size raised by their sum |
| OutboundSize.Attachments.Reconcile | hedwig/manager.py:452-472 | the loops compute the specified update |
| OutboundSize.Attachments.Copy | hedwig/rules.py:188-218 | the loop computes the specified copy, and nothing for an unflagged source |
| OutboundSize.Attachments.MaterializeAll | providers/sending.py:48-85 | succeeds exactly if every waiting row can be stored; a failure keeps the rows done so far |
| BulkState.SinglesAreTheBatch | hedwig/views.py:524-598 | the batch leaves what single changes over the same ids leave: views, messages and attempts |
| BulkState.OrderIrrelevant | hedwig/views.py:485-522 | the order and repetition of single changes do not matter |
| BulkState.ChangedView | hedwig/views.py:524-598 | field by field, a changed view has the value set, else its own, else the message's |
| BulkState.ChangedElsewhere | hedwig/views.py:524-598 | a trashed queued send is an unscheduled draft again; no other message and no other view has changed |
| BulkState.LateBatch | hedwig/views.py:563-594 | when the batch meets rows created meanwhile it fails exactly if one of them belongs to it, and otherwise keeps what others wrote |
| BulkState.FailedBatchWithdraws | hedwig/views.py:545-594 | a batch that fails moves no view, and has withdrawn exactly the queued sends with a pending attempt that it trashes and its caller may write |
| BulkState.Messages.CancelScheduledSend | hedwig/manager.py:543-575 | cancels exactly a queued outbound send with a pending attempt |
| BulkState.Messages.Upsert | hedwig/manager.py:636-664 | creates the row from the message or keeps its other fields |
| BulkState.Messages.PatchState | hedwig/views.py:485-522 | one single change, the cancellation on trashing included |
| BulkState.Messages.BulkState | hedwig/views.py:524-598 | rejects an empty request or an invisible id, and otherwise leaves what the single changes leave |
| BulkState.Messages.Split | hedwig/views.py:571-588 | the rows to create and to update, each id in one of them |
| Tokens.SearchTokens | hedwig/filters.py:253-269 | the loop computes the specified tokens |
| Tokens.TokensOfAnyQuery | hedwig/filters.py:253-269 | for every query: nonempty tokens, balanced but for the last, whose concatenation is the query without unquoted whitespace |
| Tokens.SplitsAtWhitespace | hedwig/filters.py:253-269 | every whitespace character outside quotes splits: the tokens are those before it and those behind it |
| Tokens.SolidIsOneToken | hedwig/filters.py:253-269 | a text without unquoted whitespace is one token |
| Tokens.JoinedTokenizes | hedwig/filters.py:253-269 | tokenizing is inverse to joining with spaces on every token list |
| Tokens.TokensRoundTrip | hedwig/filters.py:253-269 | tokenizing the space-joined tokens of a query gives the same tokens |
| LastSeen.CacheAlwaysOk | utils/middleware.py:50-68 | after any requests in time order the cache is bounded, in step with the database and ordered by recency |
| LastSeen.BoundedAndCurrent | utils/middleware.py:15-17 | at most MAX_SIZE entries, each the user's last write, which lags the latest request by less than the interval |
| LastSeen.EarlyWriteMeansEviction | utils/middleware.py:61-68 | a write within the interval of the last means MAX_SIZE other users were touched since |
| LastSeen.Middleware.Evict | utils/middleware.py:67-68 | the loop drops exactly the least recently used surplus |
| LastSeen.Middleware.MoveToEnd | utils/middleware.py:65-66 | the user's entry is replaced and becomes the most recent |
| LastSeen.Middleware.TouchLastSeen | utils/middleware.py:50-68 | one request is one step; an anonymous one changes nothing |

## Left out

- The unlocked read of a cancellation: the send machine cancels in one atomic step, which is the intent; `SendSafety.UnlockedCancelIff` says when the two-step code agrees.
- SendExclusive.ConfirmedAtMostOnce: a request the provider accepted without answering counts as unanswered, so a duplicate at the provider is possible there.
- SendSchedule.NeverEarly: goes by the time of the reservation; send_message later overwrites `started_at` with the time of the call, which is later still.
- SendStore.Store.SendEmailMessageTask: exceptions from the saves of a failure are steps of the machine, not courses of the method; the undo countdown of an immediate send is a delay the task multiset already allows.
- Deletion of a message whose send is queued or running is not a step of the send machine.
- Threading.SameThreadIff: deletion of messages, edits of a draft after its thread was made, and drafts saved into an existing thread, which that thread does not count, are left out.
- Ingest.Mailroom.CreateInboundMessage: threading, rules and forwarding of the stored message are separate modules; drafts are rows without a Message-ID.
- Ingest.UsageBounded: the reconcile step is atomic there, and a message is deleted once; `Ingest.LateRecountIff` and `Ingest.SecondDeletionIff` cover the other cases.
- Ingest.LateRecountIff: two passes of the task that overlap.
- Delivery.EventsConverge: calls that overlap or stop halfway are in DeliveryRuns; suppression rows that expire, and events whose message is unknown, are left out; identity is that of create_delivery_event, not of the webhook payload.
- Webhook.Table.Create: does not model signature checks or the header allow-list; two inserts of one event id are ordered by an atomic get_or_create.
- Subject.NormalizeSubject: letters are folded as ASCII, which is what the prefix pattern needs.
- Rules.Inbound.EvaluateRules: rules come as one ordered list (the database orders equal priorities), text is folded as ASCII, and a forward is recorded as a call.
- Forwarding.PrintParses: int() also accepts digits outside ASCII, which no header printed here contains.
- OutboundSize.CopyRows: an object goes by the id of the row that uploaded it; URLs and checksums are left out.
- OutboundSize.SizeIsTheSum: base64 decoding is given by its length or failure; draft status is not checked, since only drafts reach the update; an update of one draft is one step of a run, `OutboundSize.OverlapIff` covers two that overlap.
- BulkState.SinglesAreTheBatch: timestamps are left out, and a request applies to the rows of one caller.
- LastSeen.CacheAlwaysOk: one process with one thread, as one cache; a user row deleted meanwhile is left out.
- Threads that tie on last_message_at: any of them may answer a lookup.
- Liveness: a crash leaves an attempt SENDING by design; only safety is stated.
- HTTP to the provider, S3, Celery, the Django ORM: replaced by nondeterministic outcomes, task multisets and atomic steps.
- Views, serializers, permissions, pagination, MIME and header extraction: only the state effects above are modelled.
- Accounts, domains and DNS, health checks, catch-all reports, search filters and folder views: little state of their own.
