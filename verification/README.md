# Verified model of the HighLevel–Telnyx messaging bridge

The program queues text messages in PostgreSQL, submits them to Telnyx, runs timed follow-up sequences per
contact, hands CRM work to HighLevel, and reacts to webhooks. Several workers share every table and may stall or
die between any two statements. This project models that system in Dafny and proves what it guarantees.

## How the model is built

- **Tables** (`Tables.dfy`) are values: one function per SQL statement or explicit transaction. Ids are positions,
  rows are only appended.
- **The machine** (`Machine.dfy`) is the whole system: the tables, the workers of all four kinds with a program
  counter and the snapshot each took when it claimed, and one action per statement, transaction or outside call.
  `Suppress` is two actions, `Complete` and `ApplyWorkflowCommands` one each. A statement may fail before it takes
  effect, or commit while its answer is lost. A run is *any* sequence of actions, so every interleaving, crash,
  clock advance and provider answer is covered. Providers, clocks, lookups and webhooks are action parameters.
- **The inbound protocol** (`Inbox.dfy`) is the machine of the two webhook tables and their workers. `Inbound.dfy`
  joins it to the system the way `processInbound` does; each half of a joint run is a run of its own machine.
- **The running program** (`Engine.dfy`, `Storage.dfy`, `Workers.dfy`, `Replies.dfy`, `Mailboxes.dfy`, `Numbers.dfy`,
  `Template.dfy`, `Catalog.dfy`) is imperative Dafny: classes whose methods change tables and enrollments in place,
  with loops and early returns, each proved against those functions. Beside the methods in the table below,
  `Storage.Store` and `Mailboxes.Mailbox` hold the statements the loops are made of (enqueue, enroll, scan, claim,
  mark, retry, fail, postpone, insert, cancel), each proved to have exactly the effect of its table function; those
  that go by id alone have none on an id that is not there. What these methods leave behind is also stated column by
  column, without those functions, in `Promises.dfy`; `Sentiments.dfy` does the same for the words of a reply, and
  `BatchRows.dfy` for the rows a batch inserts. `Iterations.dfy` shows that undisturbed iterations of all
  three worker loops and of the reply are runs of the machine.
- **Safety of runs** is in `OptOut.dfy`, `OptOutRace.dfy`, `ReplySafety.dfy`, `ReplyRace.dfy`, `InboundRuns.dfy`,
  `EnrollmentRuns.dfy`, `Numbering.dfy`, `Spacing.dfy`, `Haste.dfy`, `OutboxRuns.dfy`, `Errands.dfy`,
  `EndedRows.dfy`, `Reasons.dfy`, `Idempotency.dfy`, `Deliveries.dfy`, `InboxMarks.dfy` and `InboxTimes.dfy`. Outbound and
  CRM jobs are both shown to refine one generic leased queue (`LeasedQueue.dfy`), where the queue theorems are proved
  once.
  `Frames.dfy` says what each action leaves alone; `Scenarios.dfy` and `MissedReplies.dfy` hold concrete runs from
  the empty system.

Updates by id alone mean that some outbound, CRM and inbox results need the hypothesis that a worker calls out and
writes back only while its lease lives (`WithinLease`, `CrmWithinLease`, `Proper`); rows below call such runs live.
The opt-out, enrollment, numbering, spacing, idempotency and delivery results need no such hypothesis: they hold with
workers acting long after their leases. The reply results need it of the reply's own worker only.

## Main results

1. Opt-out: a suppressed number is safe in all runs to come if and only if no worker is past its check for it
   (`OptOutRace.SafeExactlyWhenNoneExposed`); otherwise exactly as many messages can follow as there are such workers.
2. Replies: a reply handled in time ends an enrollment in every run if and only if no other worker can get in the way
   (`ReplyRace.EndsExactlyWhenSafe`, `ReplyRace.ReplyStopsExactly`), and a processed inbound row had its reply applied
   to every enrollment it could claim (`InboundRuns.ProcessedWasAnswered`).
3. Enrollments: what has ended never restarts, ends once, and gains no row (`EnrollmentRuns.TerminalIsForever`,
   `EnrollmentRuns.EndsAtMostOnce`); outbound rows are numbered without gap or repeat within the cap
   (`Numbering.OutboundRowsAreNumbered`).
4. Spacing: messages of a sequence are the repeat interval apart, with the exact condition on every step
   (`Spacing.MessagesAreApart`, `Haste.HasteExactly`).
5. Verdicts: what every iteration does with every answer (`Workers.RunWorkerOnce`, `Workers.RunCRMWorkerOnce`,
   `Workers.RunWorkflowWorkerOnce`, `Mailboxes.RunInboundWorkerOnce`), and over all runs that no job is sent, done or
   failed and no number suppressed without its reason (`Reasons.JobsEndForAReason`, `Reasons.CrmJobsEndForAReason`,
   `Reasons.NumbersAreSuppressedForAReason`).
6. Texts: which text a message carries (`BatchRows.InsertedText`), what a reply says (`Sentiments.SentimentIsByWords`),
   and what a batch hands to the CRM (`BatchRows.AdvanceGains`, `BatchRows.ReplyGains`).
7. Jobs: every run refines a leased queue (`Outbox.RunRefines`, `Errands.CrmRefines`); one holder, one ending, and
   five calls plus those lost or owed (`OutboxRuns.SubmissionsAreBounded`, `Errands.CrmJobsAreBounded`); and one worker
   drains the queue (`Drain.RunUntilDrained`).
8. Idempotency and deliveries: one key per job and when two can collide (`Idempotency.OneKeyPerJob`,
   `Idempotency.CollisionsExactly`); events find their jobs in either order (`Deliveries.EventsFindTheirJobs`,
   `Deliveries.OrderDoesNotMatter`).
9. Inbound rows: conserved and bounded attempts, and when a row ends both ways (`Inbox.AttemptsAreAccountedFor`,
   `InboxMarks.BothExactly`).
10. The engine over whole histories (`EngineRuns.SendsAreBounded`, `EngineRuns.DriveCompletes`), templates
   (`Template.RenderExactness`, `Template.KeysExactness`) and rates (`RateLimit.RateHoldsOnlyForSingles`).

## Where the program differs from what one would expect

Each of these comes with a run or input that shows it, and with the exact condition under which it happens.

- `docs/COMPLIANCE.md:31` asks for a suppression check immediately before every provider call. The code resolves
  the sending number between the check and the call. From the empty system a message can follow the suppression of
  its number (`OptOutRace.OneSendCanFollow`); a suppressed number is safe in all runs to come if and only if no
  worker is past its check for it (`OptOutRace.SafeExactlyWhenNoneExposed`), and as many messages can follow as
  there are such workers (`OptOutRace.AllExposedCanSend`), never more (`OptOut.SendsAfterSuppression`).
- `docs/LEGACY_WORKFLOWS.md:37` promises "stop on any reply". A reply passes over an enrollment that another worker
  has locked (`MissedReplies.ReplyMissesLocked`), and one that is free can be taken from under it by a worker whose
  lease has expired (`MissedReplies.ReplyRefusedAfterStale`); the inbound row is then marked processed and never looked
  at again (`MissedReplies.SkippedForGood`). When the reply is heard, an enrollment is sure to end, whatever happens
  while the reply is handled in time, if and only if its row is free, no advancing worker still holds it other than to
  fail it, and no worker can still write to a row of the same reply that comes before it, which would make the rest of
  the reply be abandoned (`ReplyRace.EndsExactlyWhenSafe`).
- An inbound row can end both processed and failed, in a run from the empty table within all leases
  (`InboxMarks.BothIsReachable`). It happens if and only if the mark of a fifth or later attempt commits unseen and that
  worker's failing write then lands (`InboxMarks.BothExactly`).
- A client may enqueue under a message id of the form `workflow:0:1`; the enrollment of that location whose index it
  takes then counts a message that is never inserted (`Scenarios.SquattedMessageIsLost`). A message is inserted if and
  only if its id is free at its location (`EnrollmentRuns.InsertedExactlyWhenFree`).
- `RetryWorkflow` overwrites the next run, also when the batch it gives up on has in fact committed: a daily sequence
  can send its second message a minute after the first, and a definition without a repeat interval, which should send
  once, sends again (`Scenarios.NextMessageComesEarly`). A stale worker that commits the last message again with a
  clock behind it does the same. These two are all (`Spacing.MessagesAreApart`, `Spacing.SingleMessage`), and each
  matters exactly when it leaves an active row that counts all its messages with a next run at which the engine may
  send too early (`Haste.HasteExactly`, with `Haste.MayExactly` for what that means).
- `Render` is one simultaneous substitution for every set of inert values if and only if no key with braces has a tag
  that itself reads as template text (`Template.KeysExactness`; `a}}b` beside `a` is such a key), and with such keys
  excluded if and only if no value of a brace-free key contains `{{` or ends in `{` (`Template.RenderExactness`).
  Templates are those made of placeholders with brace-free names and of text without `{{` that does not end in `{`.
- The configured rate holds in every window, for every clock, only for batches of one or a period of one tick: a
  batch already begun is refilled when the clock passes its instant (`RateLimit.RateHoldsOnlyForSingles`).
- A claim made while sending is paused uses up an attempt. In a run from the empty system, after k such claims the
  first transient failure is final if and only if k is at least four (`Drain.PausedJobHasOneChance`).
- The idempotency keys of two jobs can coincide if and only if one location id extends the other by a colon
  (`Idempotency.CollisionsExactly`), and a run of two enqueues does it (`Idempotency.CollisionIsReachable`).
- `Claim` does not select the contact id, so in `RunWorker` the number lookup always yields the job's own number
  and its error branches cannot be taken (`Workers.RunWorkerOnce`).

## Model

| member | source | states |
|---|---|---|
| `Workers.RunWorkerOnce` | internal/app/app.go:599-660 | One iteration takes the oldest waiting job and leaves it, by its columns: queued a second on while paused; failed for a suppressed number; done under the id Telnyx accepts it with, its events correlated; failed, its number suppressed and nothing left queued to it, on code 40300; on 408, 425, 429, 5xx or no answer queued 2, 4, 8, 16 seconds on after attempts one to four and failed from the fifth; failed on any other refusal; nothing else changes, and the number lookup never matters |
| `Workers.WorkedIsHandled` | internal/app/app.go:615-658 | The same of the table function the machine is tied to, for every job, state and answer |
| `Promises.RefusalEmptiesQueue` | internal/app/app.go:643-648 | After code 40300 no job to that number is queued |
| `Workers.RunCRMWorkerOnce` | internal/app/app.go:662-697 | One iteration takes the oldest waiting CRM job and leaves it done if HighLevel took it, otherwise queued 2, 4, 8, 16 seconds on after attempts one to four and failed from the fifth; no other row or column changes |
| `Workers.CrmWorkedIsHandled` | internal/app/app.go:682-695 | The same of the table function the machine is tied to |
| `Workers.RunWorkflowWorkerOnce` | internal/app/workflows.go:90-131 | One iteration takes the first due, active, unlocked enrollment and leaves it put off by an hour without a definition switched on, failed when the engine refuses it, put off by a minute when the batch is lost, and otherwise with the batch committed, for some order of its variables |
| `Mailboxes.RunInboundWorkerOnce` | internal/app/app.go:699-746 | One iteration serves the oldest open row of each table, as a trace of the protocol and by its columns: processed, or locked for 2, 4, 8, 16 minutes after attempts one to four, or failed at the fifth |
| `Reasons.JobsEndForAReason` | internal/app/app.go:620-658 | In every run a job is sent under an id only after Telnyx accepted it under that id, and failed only after its number was read as suppressed, a refusal for good, or a passing error at the fifth attempt or later |
| `Reasons.CrmJobsEndForAReason` | internal/app/app.go:682-695 | In every run a CRM job is done only after a call of it returned ok, and failed only after a fifth or later call failed |
| `Reasons.NumbersAreSuppressedForAReason` | internal/store/store.go:21-33 | In every run a number is suppressed only after a request to suppress it, a STOP from it, or a refusal of a message to it with code 40300 |
| `BatchRows.InsertedMessage` | internal/store/workflows.go:113-133 | Every outbound row an advance inserts in a state reached: location, number, contact and text of its enrollment, the next index, the instant the reserver grants at the definition's rate, the text rendered from the enrollment's variant |
| `BatchRows.InsertedText` | internal/workflow/engine.go:123-141 | Under the hypotheses of `Template.RenderIsSimultaneous` that text is the simultaneous substitution of the contact's variables in the variant's message |
| `BatchRows.AdvanceGains` | internal/store/workflows.go:143-159 | The CRM rows of a committed advance: for a due manual follow-up its task with the definition's text and its action, both without a reply; otherwise none |
| `BatchRows.ReplyGains` | internal/store/workflows.go:136-159 | The CRM rows of a committed reply: none for a stop, which suppresses the contact; `not_interested` and `archive_conversation` for a refusal that is to be archived; otherwise the definition's action, if any; each with the text heard and no body |
| `Promises.RunCommandDoes` | internal/store/workflows.go:112-161 | What each command of a batch inserts or cancels, column by column |
| `Sentiments.SentimentIsByWords` | internal/workflow/engine.go:203-219 | A reply is negative iff its lower-cased, single-spaced text contains one of seven phrases or its first decisive word, punctuation aside, is no or never; positive iff none of the phrases and that word is yes, sure or interested |
| `Engine.StartExactly` | internal/workflow/engine.go:56-86 | Who can be enrolled: an enabled valid definition, a contact id, and for messages a phone, a consent time and a source that is not blank; the first message is due after the initial delay |
| `Engine.Advance` | internal/workflow/engine.go:88-144 | The in-place method does what the specification says for some order of the variable map; `AdvanceEnds` and `AdvanceMessages` say what that is |
| `Engine.AdvanceEnds` | internal/workflow/engine.go:91-110 | When a call does nothing, refuses the definition, finishes a manual follow-up with its task and action, or finishes at the cap |
| `Engine.AdvanceMessages` | internal/workflow/engine.go:111-144 | When a due message is refused for its zone, put off to the first minute of the window by the contact's own clock, refused for its variant or template, or sent with the rendered text at the definition's rate |
| `Engine.Reply` | internal/workflow/engine.go:146-165 | In place, by the words of the text: a stop suppresses; a refusal under archiveNegative is archived; all else gets the definition's action or none; the enrollment ends either way |
| `OptOut.SendsAfterSuppression` | internal/app/app.go:610-638 | Over any run, once a number is suppressed, all messages ever submitted to it again are at most one for each worker that had already read "not suppressed"; no lease or cancellation is needed |
| `OptOutRace.SafeExactlyWhenNoneExposed` | internal/app/app.go:620-638 | With a number suppressed, no run from here submits to it if and only if no worker is past its check for it |
| `OptOutRace.AllExposedCanSend` | internal/app/app.go:620-638 | Some run submits exactly one message for each worker past its check: the bound above is reached |
| `OptOutRace.OneSendCanFollow` | internal/app/app.go:620-638 | For every message, a run from the empty system suppresses its number and then submits it |
| `OptOut.SuppressionIsForever` | internal/store/store.go:21-33 | No statement of any worker ever removes a number from the list |
| `OptOut.StopReplySuppresses` | internal/store/workflows.go:136-142 | A STOP reply whose transaction commits suppresses its sender in that same step |
| `ReplyRace.EndsExactlyWhenSafe` | internal/app/workflows.go:133-152 | In every reachable state and for every enrollment a reply is meant for: all runs in which the reply is handled wholly and in time end it if and only if, when the reply is heard, its row is free, nobody is about to put it back, and no other worker can still write to a row the reply comes to first |
| `ReplyRace.ReplyStopsExactly` | internal/app/workflows.go:133-152 | "Stop on any reply" for all of them at once: every such run ends all enrollments the reply is meant for if and only if each is safe in that sense |
| `ReplySafety.AwaitedEnds` | internal/app/workflows.go:133-152 | A row that the reply has locked, that no other worker can put back, and whose predecessors in the reply no other worker can write to, is ended in every run in which the reply's worker gets through before its locks expire |
| `MissedReplies.ReplyMissesLocked` | internal/app/workflows.go:133-152 | A run from the empty system: the reply finds the row locked and leaves no trace, and message 1 then goes out to an active enrollment |
| `MissedReplies.ReplyRefusedAfterStale` | internal/app/workflows.go:133-152 | A run from the empty system: the row is free and claimed for the reply, a worker whose lease has expired lands on it, the reply is refused within its own lease, and the enrollment stays active |
| `InboundRuns.ProcessedWasAnswered` | internal/app/app.go:558-580 | In every joint run, a row that is marked processed had its reply heard by a worker at it, and every enrollment the reply was meant for and that nobody had locked at that moment is over |
| `Inbound.RunIsBoth` | internal/app/app.go:558-580 | The inbound table and the system joined by processInbound: each half of a joint run is a run of its own machine, so every other result holds of it |
| `MissedReplies.SkippedForGood` | internal/app/app.go:558-580 | A joint run in which the inbound row of such a reply is marked processed while its enrollment is still active and gets its message |
| `EnrollmentRuns.TerminalIsForever` | internal/store/workflows.go:98-109 | For every interleaving with stale workers, an enrollment that has left pending and awaiting_reply never returns and gains no further outbound or CRM row |
| `EnrollmentRuns.EndsAtMostOnce` | internal/store/workflows.go:91-162 | At most one terminal batch is ever committed for an enrollment, and its CRM rows are at most two, from one transaction |
| `Numbering.OutboundRowsAreNumbered` | internal/store/workflows.go:113-133 | For every enrollment of every run at whose end no client row has its location and an id workflow:e:k of its own: its outbound rows are indices 1 to m, each once and in order, m within the cap, and no live snapshot or row counts more than m |
| `Numbering.TakenIndices` | migrations/001_init.sql:4-8 | In such states the UNIQUE key on location and id stops exactly the indices 1 to m that already exist |
| `EnrollmentRuns.InsertedExactlyWhenFree` | internal/store/workflows.go:114-133 | A committed advance inserts its message if and only if the id is not taken by any row; it counts the message either way |
| `Scenarios.SquattedMessageIsLost` | internal/app/app.go:347-355 | A run from the empty system with a client id "workflow:0:1": the enrollment counts one message and owns no row |
| `Enrollments.StepKeepsLocking` | internal/store/workflows.go:45-172 | Every statement keeps the invariant behind these: terminal rows are unlocked, active rows own no CRM row, snapshots match their rows' fixed columns |
| `Haste.HasteExactly` | internal/app/workflows.go:111-130 | After any such run and for any next action: all unhastened runs from there keep the messages apart if and only if the action does not hasten the enrollment; a hastening one is followed by a run that inserts the next message too early |
| `Spacing.MessagesAreApart` | internal/app/workflows.go:111-130 | In every run in which nothing hastens an enrollment, no message of it is inserted before the repeat interval after the one before is over, whatever stale workers apply and whatever their clocks say |
| `Spacing.SingleMessage` | internal/app/workflows.go:111-130 | In such a run a definition without a repeat interval gets one message at most |
| `Haste.MayExactly` | internal/workflow/engine.go:88-144 | What "the engine may send too early" comes to: switched on, below the cap, zone and template in order, and due with the window open at some instant that is too early |
| `Scenarios.NextMessageComesEarly` | internal/app/workflows.go:127-130 | A run from the empty system in which a lost answer's postponement brings message 2 a minute after message 1, for every repeat interval above a minute and for a definition that has none |
| `OutboxRuns.SubmissionsAreBounded` | internal/app/app.go:638-658 | In every live run a job is ended by a worker at most once and submitted at most five times plus the submissions lost or still owed |
| `OutboxRuns.OneHolderPerJob` | internal/store/store.go:41-51 | In every live run of the system no two workers hold a job at once |
| `Outbox.RunRefines` | internal/app/app.go:599-660 | So is every run |
| `EndedRows.EndedJobsStay` | internal/store/store.go:52-73 | In every live run a sent, failed or cancelled job never changes again in any column |
| `Errands.CrmRefines` | internal/store/crm.go:22-67 | Every action of the system is a sequence of leased-queue events for CRM jobs |
| `Errands.CrmJobsAreBounded` | internal/app/app.go:662-697 | In every live run: one holder per CRM job, ended at most once, executed at most five times plus executions lost or owed |
| `EndedRows.EndedCrmJobsStay` | internal/store/crm.go:54-67 | In every live run a done or failed CRM job never changes again in any column |
| `LeasedQueue.RunsAreAccountedFor` | internal/app/app.go:638-658 | Conservation: every call is recorded, lost, or still owed |
| `LeasedQueue.CallsAreBounded` | internal/app/app.go:638-658 | At most five outcomes are recorded, so calls exceed five only by outcomes lost or owed |
| `Idempotency.OneKeyPerJob` | internal/app/app.go:638 | In every run all submissions of a job carry its row's key, and two jobs share a key only if one location extends the other by a colon |
| `Idempotency.CollisionsExactly` | internal/app/app.go:638 | Keys under two locations can collide if and only if one is the other followed by a colon and more |
| `Idempotency.CollisionIsReachable` | internal/app/app.go:638 | Two enqueues reach such a collision |
| `Deliveries.EventsFindTheirJobs` | internal/store/store.go:52-88 | If no provider id is given to two jobs, in every run each delivery event of a completed job's id has that job, and no event has another's |
| `Deliveries.OrderDoesNotMatter` | internal/store/store.go:52-88 | Webhook before completion and completion before webhook leave identical tables |
| `Deliveries.DuplicateChangesNothing` | internal/store/store.go:83-88 | A redelivered event changes nothing, at any later time |
| `Drain.RunUntilDrained` | internal/app/app.go:604-659 | One worker, unpaused and losing no write, ends every job in at most Σ max(1, 5−attempts) iterations, whatever Telnyx answers |
| `Drain.PausesSpendAttempts` | internal/app/app.go:615-619 | For every message and k, a run from the empty system claims it k times while paused and ends in exactly the state with k attempts spent |
| `Drain.PausedJobHasOneChance` | internal/app/app.go:615-658 | In that run, resumed, the first transient failure is final if and only if k is at least four |
| `InboxMarks.BothExactly` | internal/app/app.go:714-722 | In every live run a row ends both processed and failed if and only if a fifth or later attempt's mark commits unseen and that worker's failing write lands |
| `InboxMarks.BothIsReachable` | internal/app/app.go:714-722 | A live run from the empty table in which it happens |
| `Inbox.ClosedIsForever` | internal/store/store.go:183-242 | Under any interleaving with stale writers a processed or failed row stays so and is never claimed again |
| `Inbox.AttemptsAreAccountedFor` | internal/app/app.go:699-746 | Conservation: every background attempt is retried, ended, lost or under way |
| `Inbox.RetriesAreBounded` | internal/app/app.go:714-722 | At most four retries of a row are ever written, with no assumption on leases |
| `Inbox.AttemptsAreBounded` | internal/app/app.go:699-746 | Within leases, background attempts exceed five only by those lost or under way |
| `InboxTimes.AttemptsAreSpaced` | internal/app/app.go:748-750 | If nothing of a row is lost, attempt k comes only after the handler's lease and all delays scheduled before it |
| `EngineRuns.SendsAreBounded` | internal/workflow/engine.go:88-165 | For every sequence of Advance and Reply calls at any times: sends within the cap, none before NextRun, all inside the local window, at least RepeatEvery apart |
| `EngineRuns.StartedEnrollment` | internal/workflow/engine.go:56-86 | From enrollment on: at most MaxOccurrences sends, the i-th at least i intervals after the first due time, and always an existing variant |
| `EngineRuns.DriveCompletes` | internal/workflow/engine.go:88-144 | k messages short of the cap, 2k+1 calls at NextRun send exactly k more, complete the enrollment, and bound the last send |
| `EngineRuns.DriveFromStart` | internal/workflow/engine.go:56-144 | A recurring definition driven from Start sends exactly MaxOccurrences messages, the last no later than the delay, the intervals and one closed period per message |
| `EngineRuns.SingleSendWaits` | internal/workflow/engine.go:137-141 | As far as calls of the engine go: without a repeat interval one message is sent and no Advance changes the enrollment again (the workers can: `Scenarios.NextMessageComesEarly`) |
| `SendWindow.NextAllowedIsEarliest` | internal/workflow/engine.go:191-201 | The least instant from now on at which the local window is open; a deferral never exceeds the daily closed time |
| `Template.RenderIsSimultaneous` | internal/workflow/engine.go:167-180 | For templates of placeholders and inert text, keys whose tags cannot be read as such text unless brace-free, and inert values of brace-free keys: every order of the variables gives the one simultaneous substitution, succeeds iff all placeholders are bound, and otherwise names the same first missing one |
| `Template.RenderExactness` | internal/workflow/engine.go:167-180 | With such keys, agreement for all those templates and orders holds if and only if no value of a brace-free key contains `{{` or ends in `{` |
| `Template.KeysExactness` | internal/workflow/engine.go:167-180 | For any set of keys, agreement whatever the inert values are holds if and only if no key with braces has a tag that reads as template text |
| `RateLimit.GrantsClosedForm` | internal/store/workflows.go:207-235 | While the clock stays behind, the i-th reservation gets v + ((B−r+i) div B)·Per |
| `RateLimit.AnyClock` | internal/store/workflows.go:217-234 | Under any clock: no instant is granted more than B times, and for B = 1 grants are at least Per apart |
| `RateLimit.RateHoldsOnlyForSingles` | internal/store/workflows.go:223-226 | The rate holds in every window under every clock if and only if B = 1 or Per is one tick |
| `Catalog.EnabledCatalog` | internal/workflow/catalog.go:87-109 | Succeeds iff every non-blank key names a catalog entry that is not a draft; then every entry is there as listed, switched on if asked for |
| `Numbers.NormalizedIsValid` | internal/domain/domain.go:41-63 | A normalised number always passes the final E.164 check |
| `Numbers.NormalizedIsNorthAmerican` | internal/domain/domain.go:41-63 | Ten digits, or eleven beginning with 1, normalise to +1 and the ten digits |
| `Numbers.OwnedIsSelectedByDigits` | internal/domain/domain.go:19-37 | So an owned number is selected by its digits, however they are punctuated |
| `Numbers.ResolutionIsOwned` | internal/app/app.go:372-410 | The number a job goes out from: its own without a contact or a preference, otherwise an owned one or none |
| `Numbers.SelectionIsOwned` | internal/domain/domain.go:19-37 | A selection is a valid number: the fallback for a blank entry, otherwise an owned one; an owned number selects itself |
| `Numbers.OptOutIsByWords` | internal/domain/domain.go:65-72 | A text opts out iff its upper-cased words are one of the seven commands; spacing and case never matter |
| `Iterations.IterationIsRun` | internal/app/app.go:599-660 | In every state, what an undisturbed iteration of RunWorker does to the tables is what some run of the machine does, all else unchanged |
| `Iterations.CrmIterationIsRun` | internal/app/app.go:662-697 | The same for RunCRMWorker |
| `Iterations.WorkflowIterationIsRun` | internal/app/workflows.go:90-131 | The same for RunWorkflowWorker |
| `Iterations.ReplyIsRun` | internal/app/workflows.go:133-152 | The same for a reply, handled wholly or cut short after any number of records |
| `Replies.ApplyWorkflowReply` | internal/app/workflows.go:133-152 | The loop, uninterrupted: it ends exactly the active, unlocked enrollments of the two numbers and changes no other; cut short, the rest are only locked; a STOP that reached one suppresses the number; the tables are those of the machine after so many records (with interference: `ReplyRace`) |
| `Template.Render` | internal/workflow/engine.go:167-180 | The loop over the map computes the specification for some order |
| `Idempotency.SubmitsItsRow` | internal/app/app.go:638 | In every run a submission carries its row's text, from and to its row's numbers, under location:message id |
| `Storage.Store.Complete` | internal/store/store.go:52-65 | Marks the job sent and gives it every unmatched event of its provider id, and touches nothing else |
| `Storage.Store.UpdateDelivery` | internal/store/store.go:83-88 | Records a new event with its job if known; fails when two jobs match |
| `Storage.Store.ClaimWorkflowsForReply` | internal/store/workflows.go:62-89 | Locks every matching active unlocked enrollment and returns their snapshots |
| `Storage.Store.ApplyWorkflowCommands` | internal/store/workflows.go:91-162 | All or nothing: refused unless the row is locked, rolled back if the database fails at any command; otherwise the row carries the new state unlocked, every command in turn has inserted or cancelled the rows that `Promises.RunCommandDoes` spells out, and no other enrollment changes |
| `Storage.Store.ReserveWorkflowRate` | internal/store/workflows.go:207-235 | Grants an instant and updates the row as the reserver specification says |

## Left out

- LegacyCatalog: the concrete catalog and its message copy; `EnabledCatalog` is proved for every catalog with distinct keys.
- FindByName, StopOnAnyReply and LegacyVariantCount: they decide nothing in the modelled code.
- HTTP routing, JSON decoding and payload columns, configuration, admin and Signal Desk endpoints, voice: plumbing without protocol state.
- FindOutboundByProviderID and what HighLevel is told about a delivery: outside calls; only whether they succeed matters here.
- OAuth tokens and states, webhook signatures and bearer checks: authenticated input is assumed.
- acceptsInbound: a filter on which webhooks are heard; a run simply has no webhook where it refuses.
- PostgreSQL isolation and SKIP LOCKED: a claim is one atomic choice of the least eligible row.
- Timestamps rounded to microseconds: instants are whole nanoseconds, one database clock; the program's own clock is a free parameter of each action.
- IANA zones and daylight saving: a zone is unset, a fixed offset, or unloadable.
- The FNV hash: any number; only its reduction modulo the message count matters.
- Unicode: white space is Latin-1, case mapping ASCII.
- Definitions do not change during a run and are filed under their own keys.
- The program's clock is read once per applied batch; the engine's batches hold at most one send.
- RETURNING order of a reply's records, and event-id order among inbound rows received at one instant: taken in order of insertion.
- Integers are unbounded: identifiers and counters do not wrap.
- Number resolution in `RunWorker` when a HighLevel client is absent: the same as with the empty contact id it always passes.
- Templates outside the piece grammar, such as an unclosed `{{`: `Render` and its check are modelled for them, but they have no simultaneous reading to compare with.
- Keys whose tags read as template text, with values that happen to fit: `KeysExactness` says which sets of keys are safe whatever their values, not which single maps of unsafe keys render as hoped.
- Delivery events in the joint machine: handling one makes outside calls only, so `Inbox` alone covers that table.
- What `SetSMSDND` and `ForwardInbound` do: outside calls that succeed or fail.
- The order in which a map of variables is visited: any list in the machine; the spacing results take orders of the contact's variables, as the worker does.
