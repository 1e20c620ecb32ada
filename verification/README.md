# CoffeeBuddy: verified model

CoffeeBuddy coordinates office coffee runs: people submit orders to an open run, closing the run picks a runner
fairly and freezes the orders, reminders go out before the pickup, and administrators configure and reset
channels. This project models these services in Dafny and proves what they guarantee over every history of
requests.

## How it is built

The store is a `Session` whose tables are maps from unique key to row, and the services are classes that update it
in place. Each service method is proved equal to a specification function on the value of the store (`Db`) and on
the clock readings still to come (`Tape`). `Machine.Step` puts the specifications together into one state machine;
a history is a `Trace` of worlds, events (requests with their clock readings) and replies, and a `World` is the store
with the latest reading used and the repeat flag of each close.

| file | contents |
|---|---|
| `Data.dfy`, `Ordering.dfy` | rows, tables, clock, replies; finite total orders and the participant listing |
| `Fairness.dfy` | runner selection and the statistics rows |
| `Text.dfy`, `Orders.dfy` | validator, orders, preferences |
| `Runs.dfy` | closing a run |
| `Admin.dfy` | configuration, enable/disable, reset, audit log |
| `Machine.dfy` | the state machine over all requests |
| `History.dfy`, `Index.dfy`, `Turns.dfy`, `RoundRobin.dfy` | one channel's ledger of closed runs, and what each close keeps |
| `Guarantees.dfy` | the fairness theorems for all histories |
| `Choice.dfy` | who runs, read off closed runs and orders alone |
| `Integrity.dfy`, `Stamps.dfy` | foreign keys, valid texts; time stamps and row identity |
| `Contents.dfy`, `Counts.dfy` | the tables against what an observer of requests and replies writes down; participant counts |
| `Answers.dfy` | which requests are accepted, which error the others get, what replies say |
| `Stability.dfy`, `Locality.dfy`, `Audit.dfy` | frozen runs; channel independence and reset; log replay |
| `Reminders.dfy`, `Dispatching.dfy` | scheduler, worker and consumer; when reminders go out |

Histories may interleave requests on all channels and contain resets. A reset deletes a channel's runs, so the
closed runs in the store are those since the last reset, and every statement about "closed runs" is a statement
about a fresh or just-reset channel.

Assumptions made explicit in the statements:

- The clock gives a later reading each time it is read (`Tape.Ticking`, `Timely`). The fairness theorems need it;
  refinement, counts, stability, locality and audit do not.
- Identifiers are opaque. A UUID's canonical text sorts as its number, so ids are natural numbers. Locality uses
  that a run id belongs to one channel for good.
- Display names are compared by code point; a database with another collation lists participants in another order.
- The authorizers and the maximal order length are parameters (`Policy`).

Where the code differs from what is written about it, the model follows the code:

- `fairness_window_runs` is never read; counts run since the last reset.
- Ties in count and last run are broken by the creation time of the statistics row before the user id
  (src/coffeebuddy/services/fairness/service.py:103-106); the rationale text names only the user id. This is why a
  fixed crew starts its rotation in display-name order.
- The worker is said to be within 60 seconds of the scheduled time (README_REQ-004.md:5). Because it sleeps inside
  the only handler and the runner reminder is published first, a last call whose lead exceeds the offset by more
  than the tolerance is late. `Dispatching.LastCallWaitsForRunner` gives the exact condition and
  `Dispatching.LastCallTenMinutesLate` an input.
- A reminder with a naive time is counted both as sent and as error, because measuring its delay raises after the
  send (src/coffeebuddy/infra/kafka/reminder_worker.py:63-73). `Dispatching.EveryMessageCounted` gives the exact
  condition under which the counters add up.

## Model

| member | source | states |
|---|---|---|
| `Guarantees.PairwiseFairness` | src/coffeebuddy/services/fairness/service.py:41-64 | in every reachable state, if j took part in every closed run i took part in, i has run at most one time more than j, for any repeat flags and any other participants |
| `Guarantees.NeverAhead` | src/coffeebuddy/services/fairness/service.py:41-64 | the inductive form: under the same condition i is never ahead of j when j ran last |
| `Guarantees.RotationHistory` | src/coffeebuddy/services/fairness/service.py:43-64 | with a fixed crew the k-th run to close since the channel was fresh or reset goes to crew member k mod n in (display name, id) order, whatever the repeat flags |
| `Guarantees.QuotaHistory` | src/coffeebuddy/services/fairness/service.py:57-64 | with a fixed crew of n, after t closes member k has run exactly its quota: t div n times, plus one if k < t mod n |
| `Guarantees.RoundsRepeatHistory` | src/coffeebuddy/services/fairness/service.py:43-64 | any n consecutive closes of a fixed crew have n different runners, and the (k+n)-th runner is the k-th |
| `Choice.ChoiceHistory` | src/coffeebuddy/services/fairness/service.py:41-71 | every close of every history takes, among the participants not passed over, the one with fewest runs, then the latest run longest ago, then the earliest first participation, then the first in the listing, all read off runs and orders; passed over is exactly the runner of the latest closed run when repeating is not allowed and somebody else takes part; excludedLast and previousCount say so |
| `Choice.LeastKeyHistory` | src/coffeebuddy/services/fairness/service.py:41-57 | the runner has the lexicographically least (count, last run, creation, id) of the participants not passed over: of all of them when repeating is allowed |
| `Choice.KeyIsLexicographic` | src/coffeebuddy/services/fairness/service.py:103-106 | the sort key orders as the tuple of its four components |
| `Choice.DebutsStep` | src/coffeebuddy/services/fairness/service.py:84-101 | creation times of statistics rows tell who took part in a closed run first and, among those who joined together, who is listed first |
| `Guarantees.BackToBackExplained` | src/coffeebuddy/core/runs/service.py:156-170 | two runs of a channel that close one after the other have the same runner only if the second close allowed the repeat or nobody else took part |
| `Guarantees.StatsIndexHistory` | src/coffeebuddy/core/runs/service.py:64-80 | in every reachable state a user's served count is the number of closed runs of the channel with that runner, the counts add up to the closed runs, and last_run_at is null iff the count is 0 |
| `Guarantees.LastRunOrderHistory` | src/coffeebuddy/services/fairness/service.py:57-64 | last_run_at orders two users exactly as their latest closing times do |
| `Guarantees.ProperStep` | src/coffeebuddy/core/runs/service.py:150-154 | runs only go from open (no runner, no closing time) to closed (both set); no step makes any other status |
| `Guarantees.EndsAtClosing` | src/coffeebuddy/core/runs/service.py:79-80 | closing reads the clock again after the runner was charged, and stores that reading |
| `Locality.ChannelsDoNotInterfere` | src/coffeebuddy/core/runs/service.py:120-131 | two stores that agree on one channel's rows give the same replies on it and still agree, when one of them also serves all other channels |
| `Locality.ResetIsFreshStart` | src/coffeebuddy/api/admin/service.py:109-131 | after a reset every later history of the channel gives the replies and rows of a channel with the same settings and no past |
| `Locality.StepElsewhere` | src/coffeebuddy/api/admin/service.py:188-207 | a step on one channel leaves every row of another channel as it is |
| `Locality.StepOwn` | src/coffeebuddy/core/runs/service.py:50-106 | a step on a channel gives the same reply and the same rows when only that channel's rows exist |
| `Locality.ResetAtBlank` | src/coffeebuddy/api/admin/service.py:109-131 | what a reset in any history leaves of the channel is its settings row and nothing else |
| `Locality.ResetReportsRows` | src/coffeebuddy/api/admin/service.py:188-207 | the four counts returned by a reset are the numbers of rows the four tables lost; configuration and switch are kept |
| `Locality.SettleOwn` | src/coffeebuddy/core/runs/service.py:64-97 | a close reads only its own channel: runner, summary and all written rows are the same without the other channels |
| `Stability.SnapshotStable` | src/coffeebuddy/core/runs/service.py:133-154 | once a close succeeds, in every continuation without a reset of the channel, runner, closing time and active orders are what the returned summary says and all of these orders are final |
| `Stability.ClosedRunStable` | src/coffeebuddy/core/orders/repository.py:97-101 | no request changes a closed run or any of its orders until its channel is reset |
| `Contents.ContentsHistory` | src/coffeebuddy/core/orders/service.py:76-163 | in every reachable state runs, channel rows, orders (id, text, final, provenance, cancelled or not), remembered texts and the log are what an observer of requests, replies and clock readings would have written down |
| `Contents.StepRefines` | src/coffeebuddy/api/admin/service.py:44-131 | every step changes these tables exactly as request and reply say: a switch takes the value asked for, a patch gives each field the value it names, each with its log entry; cancelling and closing leave preferences alone |
| `Answers.RefusalsHistory` | src/coffeebuddy/core/orders/service.py:76-130 | in every history a request gets error e exactly when, by the requests and replies before it, the ground for e is there: for all eight requests and all errors; without a ground it is accepted |
| `Answers.AnswersHistory` | src/coffeebuddy/core/runs/service.py:83-106 | in every history an accepted request is told what it asked for: text, provenance, confirmation, row id, number of active users; all fields of the summary; the settings named; the rows deleted |
| `Answers.SubmitWorks` | src/coffeebuddy/core/orders/service.py:76-91 | a submit is accepted exactly on an open run, by a known user, with a text that is not blank and fits; it stores stripped text, confirmation and provenance, revives a cancelled row, keeps its id, and remembers the text exactly when confirmed |
| `Answers.ReuseWorks` | src/coffeebuddy/core/orders/service.py:93-115 | in every reachable state use_last_order succeeds exactly when the run is open and user and preference exist; it orders the remembered text as final and from preference, leaves the text unchanged, and marks it used last |
| `Answers.CancelWorks` | src/coffeebuddy/core/orders/service.py:117-130 | a cancel is accepted exactly for an active order of a known user in an open run; the row keeps its content and id and gets the cancelling time |
| `Answers.CloseWorks` | src/coffeebuddy/core/runs/service.py:50-66 | a close succeeds exactly when the run exists and is open, the actor may close it and somebody takes part; which error comes otherwise; the missing-channel branch is never taken |
| `Answers.ClosedRunsWereAllowed` | src/coffeebuddy/core/runs/service.py:50-57 | in every reachable state every closed run was closed by a request whose actor was authorized for it, and its runner and closing time are those the summary told |
| `Answers.SwitchIsLastAsked` | src/coffeebuddy/api/admin/service.py:75-107 | in every history the switch of a channel is the value its last accepted request asked for, or the initial one |
| `Answers.SwitchWorks` | src/coffeebuddy/api/admin/service.py:83-101 | the request is accepted iff the channel exists and the actor may administer; it stores the value asked for and logs it with the previous one and the reason, or unspecified |
| `Answers.ConfigWorks` | src/coffeebuddy/api/admin/service.py:44-73 | the request is accepted iff the channel exists, the actor may administer and nothing in the patch is unfit; the settings are then the patched ones, logged unless the patch is empty |
| `Answers.PatchFits` | src/coffeebuddy/api/admin/service.py:140-186 | a patch is valid iff every setting it names is in range and last call is not switched on without any lead time |
| `Answers.SettingsNamed` | src/coffeebuddy/api/admin/service.py:145-179 | the settings applied and logged are those the patch names, each once |
| `Integrity.PreferencesValidStep` | src/coffeebuddy/core/orders/service.py:85-92 | every stored preference text is one the validator accepts and returns unchanged |
| `Counts.SubmitCounts` | src/coffeebuddy/core/orders/service.py:132-163 | a submit reports the number of active users, one more than before iff the user was not active; resubmitting keeps the order id |
| `Counts.ReuseCounts` | src/coffeebuddy/core/orders/service.py:93-115 | so does reusing the last order |
| `Counts.CancelCounts` | src/coffeebuddy/core/orders/service.py:117-130 | a cancel reports the number of active users, exactly one less than before |
| `Counts.SummaryIsComplete` | src/coffeebuddy/core/runs/service.py:120-148 | the summary lists every active user once, by (display name, id), with the right text and provenance; its total is the count last reported for the run, if any |
| `Counts.LastCountHolds` | src/coffeebuddy/core/orders/repository.py:70-75 | the count last reported for a run stays right until the channel is reset |
| `Counts.CountIsUsers` | src/coffeebuddy/core/orders/repository.py:70-75 | counting uncancelled rows counts users |
| `Counts.ParticipantsCounted` | src/coffeebuddy/core/runs/service.py:120-131 | the join with users loses no order |
| `Integrity.ReferencedStep` | src/coffeebuddy/infra/db/models.py:143-148 | every step keeps the foreign keys of the orders table |
| `Integrity.HousedStep` | src/coffeebuddy/infra/db/models.py:112-117 | every step keeps the foreign keys of the runs table, so the channel of a run is always there |
| `Stamps.StampedStep` | src/coffeebuddy/core/orders/repository.py:37-68 | in every row the stamps agree: a run was updated when it closed or else started, a cancelled order when cancelled, a preference when used, a statistics row when its user ran or else when created |
| `Stamps.RowsMoveOn` | src/coffeebuddy/core/orders/repository.py:37-68 | no step changes the id or creation time of a row; a row it adds or changes bears a clock reading of that step |
| `Audit.AuditReplays` | src/coffeebuddy/api/admin/service.py:63-101 | in every reachable state, replaying a channel's log over its first settings gives its settings now, and every recorded previous_state is what the replay has there |
| `Audit.AlwaysInRange` | src/coffeebuddy/api/admin/service.py:140-186 | the ranges 1..60, 1..50, 30..365 and, when set, 1..30 are kept by every step |
| `Contents.PatchedConfig` | src/coffeebuddy/api/admin/service.py:140-169 | applying the settings one by one sets each of the six fields the patch names and keeps the others |
| `Audit.LeadsStayKnown` | src/coffeebuddy/api/admin/service.py:170-178 | where last call is on, a lead time is set: kept by every step |
| `Audit.RemindersFollowSettings` | src/coffeebuddy/jobs/reminders/scheduler.py:60-99 | with settings any administrator can reach, a run with pickup time and runner gets its runner reminder iff reminders are on and its last call iff last call is on too, both for before the pickup |
| `Machine.RejectionChangesNothing` | src/coffeebuddy/core/runs/service.py:50-77 | a request that raises a domain error leaves the whole store as it was, without rollback |
| `Runs.RunnerTakesPart` | src/coffeebuddy/core/runs/service.py:72-77 | the runner is one of the participants, so the runner-missing branch is never taken; the participant list reaches the choice unchanged by deduplication |
| `RoundRobin.HeadRuns` | src/coffeebuddy/services/fairness/service.py:43-57 | with a fixed crew the greedy choice is the head of a FIFO queue, with or without setting the last runner aside |
| `RoundRobin.QueueLists` | src/coffeebuddy/services/fairness/service.py:57-64 | the queue, whose head moves to the back at each turn, lists the members in the order in which their turns come |
| `RoundRobin.SlotsAndQuotas` | src/coffeebuddy/services/fairness/service.py:57-64 | in closed form, turn t falls to member t mod n, and the quota of member k after t turns is t div n plus one if k < t mod n |
| `RoundRobin.HeadIsLeast` | src/coffeebuddy/services/fairness/service.py:43-57 | the head of the queue has the least key, and it is never the last runner when there are two or more |
| `RoundRobin.FirstQueue` | src/coffeebuddy/services/fairness/service.py:86-100 | before the first close the new rows put the crew in listing order |
| `RoundRobin.KeysMove` | src/coffeebuddy/services/fairness/service.py:60-64 | charging the head keeps the keys in queue order one turn later |
| `RoundRobin.QuotaMoves` | src/coffeebuddy/services/fairness/service.py:62 | charging the head keeps every member at the quota |
| `RoundRobin.RoundsRepeat` | src/coffeebuddy/services/fairness/service.py:57-64 | turns n apart fall to the same member, turns less than n apart to different ones |
| `Turns.NotAheadStep` | src/coffeebuddy/services/fairness/service.py:41-64 | one close keeps pairwise fairness together with its strengthening for the last runner |
| `Turns.RepeatExplained` | src/coffeebuddy/services/fairness/service.py:43-52 | a run that closes right after one with the same runner was allowed to, or had one participant |
| `Turns.RunnerBecomesLast` | src/coffeebuddy/core/runs/service.py:156-170 | the runner of the run just closed is the previous runner of the next close |
| `Index.IndexStep` | src/coffeebuddy/services/fairness/service.py:62 | one close keeps every count equal to the number of runs served |
| `Index.AgreesStep` | src/coffeebuddy/services/fairness/service.py:63 | one close keeps last_run_at and closing times in the same order |
| `Index.TotalStep` | src/coffeebuddy/services/fairness/service.py:57-64 | one close adds one to the sum of the counts and one closed run |
| `Index.RunnerServedLeast` | src/coffeebuddy/services/fairness/service.py:57 | the runner has served no more than any other eligible participant |
| `Index.RowsStep` | src/coffeebuddy/services/fairness/service.py:60-64 | rows belong to people who took part, are not later than the clock, and have a last run iff their count is not 0 |
| `History.LedgerStep` | src/coffeebuddy/core/runs/service.py:64-81 | a channel's closed runs and statistics change only when the channel is reset or one of its runs closes, and then as the fairness rule says |
| `History.AssignOnly` | src/coffeebuddy/services/fairness/service.py:77-82 | the choice reads the channel's own statistics rows only |
| `Fairness.ChoiceIgnoresListing` | src/coffeebuddy/services/fairness/service.py:33-57 | between users who have rows the choice does not depend on order or repetition in the list, and exactly one row changes |
| `Fairness.LeastIsUnique` | src/coffeebuddy/services/fairness/service.py:103-106 | the user id makes the keys distinct, so the minimum is unique |
| `Fairness.EnrolFacts` | src/coffeebuddy/services/fairness/service.py:86-101 | existing rows stay and the rows added are exactly the missing ones, with count 0 and no last run |
| `Fairness.EnrolInOrder` | src/coffeebuddy/services/fairness/service.py:86-98 | new rows are created in the order of the list, each with a later clock reading |
| `Fairness.UniqueIsDistinct` | src/coffeebuddy/services/fairness/service.py:118-127 | nothing is repeated, and a list without repetitions is left alone |
| `Fairness.UniqueElems` | src/coffeebuddy/services/fairness/service.py:118-127 | deduplication loses nobody |
| `Fairness.EligibleFacts` | src/coffeebuddy/services/fairness/service.py:42-55 | somebody is always eligible, so the fallback to all rows is never needed |
| `Fairness.FairnessService.UniqueOrdered` | src/coffeebuddy/services/fairness/service.py:118-127 | the loop with a seen set computes the order of first appearance |
| `Fairness.FairnessService.LoadStats` | src/coffeebuddy/services/fairness/service.py:73-101 | loads the participants' rows and adds the missing ones to the table |
| `Fairness.FairnessService.MinByKey` | src/coffeebuddy/services/fairness/service.py:57 | the scan finds the row whose key is less than every other candidate's |
| `Fairness.FairnessService.Choose` | src/coffeebuddy/services/fairness/service.py:41-57 | the candidates are all participants, less the last runner under the rule, and the choice is the least of them |
| `Fairness.FairnessService.RecordRun` | src/coffeebuddy/services/fairness/service.py:58-64 | the chosen row counts one more run at the next clock reading |
| `Fairness.FairnessService.AssignRunner` | src/coffeebuddy/services/fairness/service.py:25-71 | decision, table and clock are those of the specification; no participants means no decision and no change |
| `Ordering.RosterListed` | src/coffeebuddy/core/runs/service.py:128 | the roster of a set of users has exactly these users, in (display name, id) order |
| `Ordering.RosterIsUnique` | src/coffeebuddy/core/runs/service.py:128 | listing order leaves no choice: a listed sequence is the roster of its members |
| `Ordering.NameTotal` | src/coffeebuddy/core/runs/service.py:128 | names are totally ordered |
| `Runs.CloseRunService.LoadActiveOrders` | src/coffeebuddy/core/runs/service.py:120-131 | the participants: users with an uncancelled order, by display name and id |
| `Runs.CloseRunService.GetPreviousRunner` | src/coffeebuddy/core/runs/service.py:156-170 | the runner of the latest other closed run of the channel |
| `Runs.CloseRunService.FinalizeRun` | src/coffeebuddy/core/runs/service.py:150-154 | the run gets runner, status, closing time and update time, and nothing else changes |
| `Runs.CloseRunService.SnapshotOrders` | src/coffeebuddy/core/runs/service.py:133-148 | all listed orders become final and the snapshot has one line for each, in order |
| `Runs.CloseRunService.CloseRun` | src/coffeebuddy/core/runs/service.py:50-106 | checks in order, then runner, run, orders and summary as specified; on any error nothing changes |
| `Text.StripFacts` | src/coffeebuddy/core/orders/service.py:40 | strip cuts blanks off both ends and leaves text that begins and ends with a visible character |
| `Text.ValidateAccepts` | src/coffeebuddy/core/orders/service.py:39-47 | text is accepted iff some character is visible and the stripped text fits |
| `Text.ValidatedIsFixed` | src/coffeebuddy/core/orders/service.py:39-47 | what validation returns has length 1..max and is accepted and returned unchanged |
| `Orders.OrderRepository.UpsertOrder` | src/coffeebuddy/core/orders/repository.py:26-55 | writes the one row of (run, user), reviving it if cancelled, or adds it; no other row changes |
| `Orders.OrderRepository.CancelOrder` | src/coffeebuddy/core/orders/repository.py:64-68 | stamps the row as cancelled; no other row changes |
| `Orders.OrderRepository.CountActiveOrders` | src/coffeebuddy/core/orders/repository.py:70-75 | the number of uncancelled rows of the run |
| `Orders.OrderService.GetOpenRun` | src/coffeebuddy/core/orders/repository.py:90-101 | which error a missing run and a run that is not open raise |
| `Orders.OrderService.PersistOrder` | src/coffeebuddy/core/orders/service.py:132-163 | order, preference when confirmed, count and reply as specified |
| `Orders.OrderService.SubmitOrder` | src/coffeebuddy/core/orders/service.py:76-91 | checks in order, normalizes, persists; on any error nothing changes |
| `Orders.OrderService.UseLastOrder` | src/coffeebuddy/core/orders/service.py:93-115 | checks in order, orders the remembered text, marks it used; on any error nothing changes |
| `Orders.OrderService.CancelOrder` | src/coffeebuddy/core/orders/service.py:117-130 | cancels an active order and reports the remaining count; on any error nothing changes |
| `Orders.PreferenceService.GetPreference` | src/coffeebuddy/services/preferences/service.py:20-27 | the row of (user, channel) if there is one |
| `Orders.PreferenceService.SetPreference` | src/coffeebuddy/services/preferences/service.py:29-50 | overwrites or adds the one row of (user, channel) |
| `Orders.PreferenceService.MarkUsed` | src/coffeebuddy/services/preferences/service.py:52-55 | stamps the row as used; the text stays |
| `Admin.AdminService.Guard` | src/coffeebuddy/api/admin/service.py:51-52 | unknown channel first, then authorization |
| `Admin.AdminService.BuildConfigUpdates` | src/coffeebuddy/api/admin/service.py:140-179 | the settings of the patch in order, or an error iff a value is out of range or last call is enabled without any lead |
| `Admin.AdminService.ApplySettings` | src/coffeebuddy/api/admin/service.py:60-61 | the loop applies all settings to the channel row |
| `Admin.AdminService.UpdateChannelConfig` | src/coffeebuddy/api/admin/service.py:44-73 | validated settings are applied, stamped and logged; an empty patch changes nothing |
| `Admin.AdminService.SetChannelEnabled` | src/coffeebuddy/api/admin/service.py:75-107 | sets the switch and logs reason, previous state and whether it changed |
| `Admin.AdminService.PurgeChannelData` | src/coffeebuddy/api/admin/service.py:188-207 | deletes the channel's orders, runs, preferences and statistics, returns the counts, and never leaves an order without its run |
| `Admin.AdminService.ResetChannelData` | src/coffeebuddy/api/admin/service.py:109-131 | purges, stamps and logs with the counts |
| `Admin.AdminService.LogAction` | src/coffeebuddy/core/audit/logger.py:16-32 | appends one entry to the log |
| `Admin.PurgeSizesAreLosses` | src/coffeebuddy/api/admin/service.py:209-211 | each count is the number of rows its table lost |
| `Dispatching.DispatchLaw` | src/coffeebuddy/infra/kafka/consumer.py:92-111 | a reminder that is sent goes out at the greatest of the loop's start, all arrivals so far, and all scheduled times so far of messages to dispatch |
| `Dispatching.OnTimeExactly` | src/coffeebuddy/infra/kafka/reminder_worker.py:88-105 | it is never early, and it is within tolerance iff start, arrivals and all earlier scheduled times are |
| `Dispatching.OnTimeWhenTimely` | src/coffeebuddy/infra/kafka/reminder_worker.py:88-105 | given timely start and arrivals, it is within tolerance iff no earlier message to dispatch was scheduled more than the tolerance after it |
| `Dispatching.LastCallWaitsForRunner` | src/coffeebuddy/jobs/reminders/scheduler.py:63-99 | the last call of a run, handled right after its runner reminder, never goes out before the runner reminder's time; it is within tolerance iff lead <= offset + tolerance |
| `Dispatching.LastCallTenMinutesLate` | src/coffeebuddy/jobs/reminders/scheduler.py:63-99 | an input for which the one-minute tolerance is missed: offset 5 and lead 15 send the last call ten minutes late |
| `Dispatching.EveryMessageCounted` | src/coffeebuddy/infra/kafka/reminder_worker.py:40-77 | the consumer counts every message once; sent + skipped + error equals the reminders handled iff no reminder with a naive time was sent |
| `Dispatching.TallyAdds` | src/coffeebuddy/infra/kafka/consumer.py:98-103 | the exact sums of the counters, and one sent message per outbox entry |
| `Dispatching.EachCounter` | src/coffeebuddy/infra/kafka/consumer.py:98-111 | each counter by itself, from the message fields: error grows by the messages that cannot be read, are refused, or are sent with a naive time, success by all others; sent, skipped and error of the worker likewise |
| `Dispatching.OneCounted` | src/coffeebuddy/infra/kafka/reminder_worker.py:40-86 | which counters one message raises, by its fields |
| `Dispatching.FatesMean` | src/coffeebuddy/infra/kafka/reminder_worker.py:79-86 | a payload is sent or waited for iff reminders are on and there is a runner to remind, or last call is on |
| `Dispatching.NowIsPeak` | src/coffeebuddy/infra/kafka/consumer.py:92-111 | after any messages the worker's time is the maximum of what it had to wait for |
| `Reminders.WaitUntil` | src/coffeebuddy/infra/kafka/reminder_worker.py:88-105 | ends on every timer that moves; on a punctual one takes at most two sleeps and overshoots by at most the slack; does not wait for what is due |
| `Reminders.ReminderWorker.ProcessEvent` | src/coffeebuddy/infra/kafka/reminder_worker.py:40-77 | skips, sends or fails as specified, on any timer, and never sends early |
| `Reminders.KafkaEventConsumer.HandleMessage` | src/coffeebuddy/infra/kafka/consumer.py:98-111 | one success or one error per message; handler errors end here |
| `Reminders.KafkaEventConsumer.ConsumeLoop` | src/coffeebuddy/infra/kafka/consumer.py:92-111 | messages are handled one after the other up to the stop flag |
| `Reminders.ReminderScheduler.ScheduleForRun` | src/coffeebuddy/jobs/reminders/scheduler.py:46-106 | publishes and returns the runner reminder, then the last call, each under its conditions |
| `Reminders.SchedulerAgreesWithWorker` | src/coffeebuddy/jobs/reminders/scheduler.py:60-99 | every published payload is one the worker dispatches, has an aware time, counts once as sent or as error, and is before the pickup when offset or lead is positive |
| `Reminders.SchedulerPublishes` | src/coffeebuddy/jobs/reminders/scheduler.py:56-106 | which reminders are published, and that each names run, channel and settings, has its own id, and is due its offset or lead before the pickup |

## Left out

- Row objects are values in a table map, written back by key: two references to one ORM row are not modelled.
- The channel lookup by Slack channel id: administration requests name the channel by its id, both being unique.
- Runs that closed at the same time: SQL leaves their order open, the model orders them by run id; an advancing clock never produces them.
- A statistics row whose `created_at` is null: the column is not nullable.
- Adding, renaming and deleting users and channels: the theorems hold for any users and channels that are there at the start.
- The Slack router and command service, signature check, message blocks and the `/coffee` text parser: input and output with a different run model.
- SQLAlchemy sessions, flush and commit, migrations, credentials, the Kafka clients and producer, Prometheus and logging: table updates, message sequences and counters stand for them.
- Integrity errors of the audit table (a user id that does not exist, the `created_at` the logger does not set): the log is an append-only sequence.
- Authorization rules, rationale strings, UUID parsing and id generation: parameters or fresh opaque ids.
- `start` and `stop` of the consumer and cancellation of its task: the stop flag is a parameter of the loop.
- Fairness windows, data-retention expiry and retries: described in the documents, absent from the code.
- Times are whole microseconds: rounding of `total_seconds` to a float is not modelled.
- Reading the clock while waiting for a reminder takes no time.
