# A verified model of the notification server

The server accepts events from callers, fans each one out to vendors through message queues, retries
failed deliveries with growing delays, and folds the outcomes of all vendors back into one status per
notification. This project models its four hard parts in Dafny and proves what they are for.

## The delivery protocol

`Protocol` is a transition system over the notifications and tasks tables, the triggers, the delivery
and retry queues, and one program counter per dispatcher and per worker. One database call, one broker
call or one vendor request is one step, so the un-transacted calls of any number of workers and
dispatchers interleave freely. A failing call changes nothing but the program counter; a worker crash
returns the message it held to the delivery queue; an expiry is a step of its own.
`ProtocolInvariants`, `ProtocolTokens`, `ProtocolVerdict` and `ProtocolLife` hold the inductive
invariants. Each way to get stuck has a module that says by exactly which steps it happens and is
undone: `ProtocolAbandoning` (PENDING with tasks), `ProtocolSending` (a task nobody publishes),
`ProtocolSticking` (an open task without a message), `ProtocolSettling` and `ProtocolStranding`
(terminal tasks without a verdict). `ProtocolTries` tells every try of a task by the answer it got and
says which answers lead to delivery, to another try and to giving up. `ProtocolTheorems`,
`ProtocolOutcomes`, `ProtocolTriggering` and `ProtocolTermination` say what follows for every state of
every run; `ProtocolLimits` and
`ProtocolStaleVerdict` exhibit runs for the exceptions. Crashes count only for the tasks whose message
the crashed worker held. A worker gets nearer to its settlement with every call, failing or not
(`ProtocolTermination.ProcessingEnds`). `Server` is the same code as objects whose methods update
shared tables and queues: other participants act between any two calls, and each method is proved
to extend the system's history to a longer run of `Protocol`, so the theorems hold of the states this
code goes through. `Backoff` bounds the delays of one task over its whole life, `Shutdown` is the life
of the worker pool from `Start` to the return of `Stop`, and `Submission` and `Ingestion` are the
idempotent entrance.

## The mapping engine and the static check of its templates

`References` has the engine's regular expression and the loader's scanning loop over the same strings,
and proves that the loop covers the expression. `Engine` resolves strings, `Templates` whole
templates; object keys are visited in any order, so the result is a relation (`Possible`, `Fails`), with
`Resolves` saying when there is one. `TemplateTheorems` proves what does not depend on the order, and
`TemplateValues` says on the values themselves what references, directives and keys yield.
`Conversions` models `$type` and `$format` with decimal text spelled out; converting to any type twice
is converting once (`ConversionSettles`), booleans come back from their text, null has an empty text
(`TextsOfValues`), and what is not listed there does not convert (`NothingElseConverts`). `Extraction`,
`Noninterference` and `Loader` lead to the statement that an accepted contract's mapping body depends
only on declared fields of the payload.

## The schema validator

`Schema` checks a payload against a subset of JSON Schema Draft-07 (JSON Schema Validation, sections
6.1.1, 6.1.2, 6.2.2, 6.2.4, 6.4.1, 6.5.3 and 6.5.4). Its errors are compared, as a multiset, with the
complaints due at each reachable location, and there are none exactly when the value conforms by a
reading of the keywords of its own. `SchemaCache` adds the cache keyed on the identity of the
schema map.

## Where the code differs from its documentation

The model follows the code.

- `strings.TrimPrefix(key, "$$")` removes both dollars (internal/mapping/engine.go:185).
- The request path is resolved by the engine (internal/mapping/engine.go:89) but not looked at by the
  reference check (internal/config/loader.go:601): `Loader.PathIsNotChecked`.
- A bare `@{payload}` and a path that starts with a dot escape the reference check as well:
  `Noninterference.LoneReferenceIsCheckedIff`.
- The scanner also reports a payload reference spelled inside an item reference, which the engine never
  resolves; these are its only extra reports: `References.ReportIsListedIff`.
- `minLength` and `maxLength` are never checked, bounds only on whole floats
  (internal/ingestion/validator.go:150-190): `Schema.ErasingChangesNoError`.
- A resubmission at the very instant of the row's creation counts as new
  (internal/db/postgres/db.go:34): `Submission.SameInstantPublishesTwice`.
- Task rows are PENDING until they are terminal; DELIVERING is never written to a task.
- Triggers are never acknowledged (cmd/notification-server/main.go), so any dispatcher may receive one again at any time.
- If publishing the trigger fails, the notification stays PENDING without a task, and resubmitting it
  does not help (internal/ingestion/service.go:47-51): `Submission.NeverAnnouncedIff`,
  `ProtocolTriggering.UntriggeredIsUntried`.
- A notification is left PENDING with a task exactly after a rule list that names a vendor twice, or an
  error or crash between the first inserted task and the DELIVERING mark, and stays so for good:
  `ProtocolTheorems.AbandonedIff`, `ProtocolTheorems.AbandonedForGood`.
- A dispatched notification can come to rest without a final status in three ways, and no others
  (`ProtocolOutcomes.SettledIff`); what fails for other notifications does not matter:
  - A task was lost: a call failed in the hands of its last holder while the row was open, be it a
    read, the success mark, the dead-letter mark, the saving of the retry or the delayed publish. A
    rejected message is parked without an expiration (internal/mq/rabbitmq/mq.go:63-98), and after a
    failing success mark the message is acknowledged although the row is open.
  - A task was left unsent: its publish failed or the dispatcher crashed before it, and the status guard
    (internal/routing/dispatcher.go:43-46) skips every repeated trigger.
  - All tasks are terminal, and a call failed in the hands of the last worker pursuing the
    notification. Without redelivered tasks this is the dead-letter insert, the count or the status
    write: `ProtocolTheorems.StrandedIff`.
- A verdict counted before a redelivered task changed its outcome can be written last, so even without
  failing calls the status need not be the aggregate: `ProtocolStaleVerdict.StaleVerdictWins`. It is
  that of the last writer's count: `ProtocolOutcomes.StatusIsTheCountedAggregate`.
- A redelivered message calls the vendor again even when its task is terminal, and can overturn a final
  status: `ProtocolLimits.RedeliveryOverturnsFinalStatus`. Only a redelivered task of the notification
  itself can: `ProtocolTheorems.FinalStatusChangesIff`.

## Model

| member | source | states |
|---|---|---|
| ProtocolOutcomes.SettledIff | internal/delivery/worker.go:152-305 | in any run, whatever fails or crashes: a dispatched notification with nothing left to do for it is final, with terminal tasks only, exactly when none of its tasks was lost or left unsent and it was not killed; the status is their aggregate if none was redelivered |
| ProtocolOutcomes.UntouchedSettledIff | internal/delivery/worker.go:152-305 | for a notification without redelivered tasks: at rest it is final with the aggregate exactly when no call failed in the hands of a worker before its terminal write of one of the tasks, each task was published, and it was not stranded |
| ProtocolOutcomes.QuiescentMeansResolved | internal/routing/dispatcher.go:67-87 | so without failing calls, worker crashes included, once nothing is left to do every dispatched notification has a final status and only terminal tasks; the status is their aggregate if none was redelivered |
| ProtocolSticking.StepSticksIff | internal/delivery/worker.go:97-108 | a published open task is without a live message or holder after a step exactly if it was so before and no worker crashed with its message, or a call of its last holder failed in this step |
| ProtocolOutcomes.StuckIff | internal/delivery/worker.go:152-261 | the same over runs: exactly the lost tasks are stuck |
| ProtocolOutcomes.LostIffDropped | internal/delivery/worker.go:152-261 | a task that was not redelivered is stuck exactly if a call failed, at any time before, in the hands of a worker that held it and had not got past its terminal write |
| ProtocolSending.StepUnsendsIff | internal/routing/dispatcher.go:79-87 | a task of a dispatched notification is unpublished with nobody about to publish it exactly if it was so before, or the dispatcher that had it in its list failed or crashed in this step |
| ProtocolOutcomes.UnsentIff | internal/routing/dispatcher.go:43-87 | the same over runs; no repeated trigger ever makes up for it |
| ProtocolSettling.StepKillsIff | internal/delivery/worker.go:225-305 | a DELIVERING notification with terminal tasks only has no live message, holder or resolver after a step exactly if it was so before and no worker crashed with one of its messages, or a call of the last worker pursuing it failed in this step |
| ProtocolOutcomes.DeadIff | internal/delivery/worker.go:225-305 | the same over runs |
| ProtocolTheorems.LastFinisherResolves | internal/delivery/worker.go:225-305 | a DELIVERING notification whose tasks are all terminal, none of them redelivered, has a worker between its terminal write and its status write exactly unless a failing call of the last such worker happened before |
| ProtocolTheorems.StrandedIff | internal/delivery/worker.go:263-305 | while none of its tasks is redelivered, a notification is stranded (DELIVERING, all tasks terminal, nobody resolving it) exactly after a failing insert, count or status write of the last worker resolving it |
| ProtocolTheorems.StrandedForGood | internal/delivery/worker.go:263-305 | a stranded notification stays stranded until a worker crashes with one of its own tasks |
| ProtocolStranding.StepStrandsIff | internal/delivery/worker.go:225-305 | the same for one step: no other call, success, arrival, expiry or foreign crash strands a notification or frees it |
| ProtocolStranding.WorkNeverStrands | internal/delivery/worker.go:225-305 | a successful worker call never strands, redelivered tasks or not |
| ProtocolStranding.FaultStrandsIff | internal/delivery/worker.go:263-305 | a failing worker call strands exactly when its worker is the only one resolving a DELIVERING notification with terminal tasks only |
| ProtocolStranding.StepStrandsExactly | internal/delivery/worker.go:225-305 | with redelivered tasks too: a step strands exactly when it is a failing call or crash of the last resolver, and frees exactly when a worker handed one of its tasks again gets behind its terminal write |
| ProtocolOutcomes.StrandedSinceIff | internal/delivery/worker.go:225-305 | the same over runs |
| ProtocolTheorems.FinalStatusIsRightAndPermanent | internal/delivery/worker.go:282-305 | while none of its own tasks is redelivered, whatever else fails or crashes, a final status is the aggregate over all its tasks when written and in every later state, and never changes |
| ProtocolOutcomes.StatusIsTheCountedAggregate | internal/delivery/worker.go:282-305 | in any run a final status is the aggregate of the moment when its last writer counted, and the present one if no task outcome changed since |
| ProtocolStaleVerdict.StaleVerdictWins | internal/delivery/worker.go:282-305 | a run without failing calls that ends quiescent with status FAILED although the aggregate is PARTIALLY_FAILED: a crash, and a verdict counted early but written last |
| ProtocolTheorems.StatusMovesLegally | internal/routing/dispatcher.go:43-87 | in any run a status moves PENDING to FAILED (no rules), PENDING to DELIVERING, DELIVERING to a final value, or is overwritten by a different verdict; never the last for a notification without a redelivered task |
| ProtocolTheorems.FinalStatusChangesIff | internal/delivery/worker.go:296-302 | in any run a step changes a final status exactly when it is a worker writing a different verdict, and that takes a redelivered task of the notification itself |
| ProtocolTheorems.AbandonedIff | internal/routing/dispatcher.go:65-76 | a notification is PENDING with a task and no dispatcher at work on it exactly after the owner of its tasks failed, crashed or met a duplicate before marking it |
| ProtocolTheorems.AbandonedForGood | internal/routing/dispatcher.go:43-76 | it then stays PENDING under any faults, crashes, repeated triggers and other dispatchers |
| ProtocolTheorems.CleanPendingIsOwned | internal/routing/dispatcher.go:65-76 | without failing calls and with rules that name no vendor twice, a PENDING notification with a task has a dispatcher at work on it, so a quiescent state has none |
| ProtocolTriggering.UntriggeredIsUntried | internal/ingestion/service.go:47-51 | in any run a notification whose trigger was not published was never received by a dispatcher; it has no task and has not left PENDING |
| ProtocolAbandoning.StepAbandonsIff | internal/db/postgres/db.go:72-100 | the same exact condition for one step of anyone |
| ProtocolTheorems.StatusNeverGoesBack | internal/routing/dispatcher.go:43-46 | under faults, crashes and repeated triggers a status never moves backwards and the event type stays |
| ProtocolTheorems.PublishedTaskIsNotLost | internal/delivery/worker.go:97-108 | under any faults and crashes a published task is terminal, or has a message in a queue or in a worker's hands, or was answered with a 2xx |
| ProtocolTheorems.OneTaskPerVendor | migrations/003_delivery_tasks_constraints.up.sql:12 | repeated triggers and concurrent dispatchers never give a vendor a second task of one notification |
| ProtocolTheorems.DispatchedTasksMatchRules | internal/routing/dispatcher.go:49-71 | a notification that left PENDING has exactly one task for each vendor of its rules, and the rules name none twice |
| ProtocolTheorems.StoredRetriesAreBounded | internal/delivery/worker.go:239-250 | in any run the stored retry count is at most max(0, MaxAttempts - 1) |
| ProtocolTheorems.AttemptsAreBounded | internal/delivery/worker.go:182-261 | a task that was not redelivered gets at most max(1, MaxAttempts) vendor calls, and its delays are those of attempts 1, 2, 3, ... in order |
| ProtocolTries.TriesAreExact | internal/delivery/worker.go:182-261 | in any run a task that was not redelivered is tried as long as its tries come to nothing (a request not built, a network error, 429, or a code from 500) and no longer: at most max(1, MaxAttempts) tries; SUCCEEDED only if the last was answered 200-299; DEAD_LETTER only without a configuration, if the last was answered by any other code, or after exactly max(1, MaxAttempts) vain tries |
| ProtocolTries.EveryCallIsMade | internal/delivery/worker.go:182-261 | so a configured task whose every try was answered in vain got exactly max(1, MaxAttempts) vendor calls before it is DEAD_LETTER |
| ProtocolTries.OutcomesAreDeserved | internal/delivery/worker.go:206-250 | with redelivery, crashes and faults as well: DEAD_LETTER takes a missing configuration, a refusing code, or at least max(1, MaxAttempts) vain tries; SUCCEEDED takes an answer from 200 to 299 |
| ProtocolTries.CallsAreAnswers | internal/delivery/worker.go:198-208 | in any run the vendor calls counted for a task are its answered tries, and it counts as accepted exactly if one of them was answered 200-299 |
| ProtocolTheorems.InvInRuns | internal/delivery/worker.go:152-305 | the inductive invariant behind these theorems holds in every state of every run |
| ProtocolTheorems.TokenKept | internal/delivery/worker.go:97-108 | the single token of a task (a live message or a worker that may still write it) survives every step but the crash of a worker holding that very task |
| ProtocolInvariants.StructureKept | internal/routing/dispatcher.go:65-87 | every step keeps the invariant that ties rows, dispatchers, workers and published tasks together |
| ProtocolInvariants.StepGrows | internal/db/postgres/db.go:63-150 | no step deletes a row, changes its identity, or takes back a terminal task status |
| ProtocolInvariants.NotLostKept | internal/mq/rabbitmq/mq.go:63-98 | every step keeps each published task findable, negative acknowledgements and expiries included |
| ProtocolVerdict.CountingAggregates | internal/db/postgres/db.go:152-164 | the three SQL counts lead to exactly the verdict that quantifying over the task rows gives |
| ProtocolTermination.StepLowersRank | internal/delivery/worker.go:239-261 | every step that moves a task's message lowers a rank made of retries left and position, failing calls and foreign crashes included |
| ProtocolTermination.MovesCostRank | internal/delivery/worker.go:239-261 | between two states of a run the message of a task not redelivered moves at most as often as its rank went down |
| ProtocolTermination.JourneyEnds | internal/delivery/worker.go:182-261 | so the journey of a task not redelivered ends after at most 20 * max(1, MaxAttempts) moves |
| ProtocolLimits.FailedInsertStrands | internal/delivery/worker.go:263-278 | a run with one failing call, the dead-letter insert, that ends quiescent with the notification stranded |
| ProtocolLimits.FailedCountStrands | internal/delivery/worker.go:282-287 | the same with the count as the one failing call |
| ProtocolLimits.FailedStatusWriteStrands | internal/delivery/worker.go:294-304 | the same with the status write as the one failing call |
| ProtocolLimits.FailedSuccessMarkLoses | internal/delivery/worker.go:225-233 | a run with one failing call, the success mark, that ends quiescent: the vendor took the delivery, the row is open, and the notification stays DELIVERING |
| ProtocolLimits.FailedReadLoses | internal/delivery/worker.go:156-160 | the same with the read of the task as the one failing call |
| ProtocolLimits.FailedPublishLeavesUnsent | internal/routing/dispatcher.go:79-87 | the same with the publish of the delivery as the one failing call |
| ProtocolLimits.FailedTaskInsertAbandons | internal/db/postgres/db.go:80-97 | a run in which the second vendor's insert fails and the notification is left PENDING with a task |
| ProtocolLimits.DuplicateRuleAbandons | internal/db/postgres/db.go:80-97 | a run without failing calls in which a vendor named twice does the same |
| ProtocolLimits.RedeliveryOverturnsFinalStatus | internal/delivery/worker.go:97-108 | a run without failing calls in which a crash before the acknowledgement turns FAILED into SUCCEEDED |
| Server.Server.HandleDelivery | internal/delivery/worker.go:90-108 | the history gains a run stretch that begins with taking this message and ends with acknowledging it, if processing returned no error, or rejecting it |
| Server.Server.ProcessMessage | internal/delivery/worker.go:152-215 | each branch makes the calls of the protocol in order; the result says whether to acknowledge; which codes lead to which branch is pinned by `ProtocolTries.TriesAreExact` for the run it extends |
| Server.Server.RetryOrDeadLetter | internal/delivery/worker.go:239-261 | the retry row is saved before the delayed message is published, or the task is given up at the limit |
| Server.Server.HandleDeadLetter | internal/delivery/worker.go:263-278 | mark, insert, resolve; an error of the first two asks for rejection |
| Server.Server.HandleDeliverySuccess | internal/delivery/worker.go:225-233 | the status is resolved and the message acknowledged even if marking the row failed |
| Server.Server.ResolveNotificationStatus | internal/delivery/worker.go:282-305 | the status written is the verdict of the counts; while tasks are open nothing is written |
| Server.Server.Dispatch | internal/routing/dispatcher.go:32-90 | the history gains a run stretch that begins with receiving this trigger; without an error the notification has left PENDING, and an error comes with a failing call, a missing row or a duplicate insert of this dispatcher |
| Server.Server.CreateAndPublish | internal/routing/dispatcher.go:65-87 | all tasks are created before the DELIVERING mark, and it is written before any publish |
| Server.Server.CreateDeliveryTasks | internal/db/postgres/db.go:72-100 | one row per vendor in rule order under the unique constraint, stopping at the first error |
| Server.Server.PublishDeliveries | internal/routing/dispatcher.go:79-87 | on success every created task has been published |
| Backoff.DelayIsExact | internal/delivery/backoff.go:21-38 | for every attempt, policy and random number: base * m^n, cut to the cap if there is one, times 1 - jitter * random if there is jitter, in whole milliseconds |
| Backoff.PowerAdds | internal/delivery/backoff.go:22 | m^0 = 1, m^1 = m and m^(j + k) = m^j * m^k |
| Backoff.UncappedDelayMultiplies | internal/delivery/backoff.go:22-26 | without a cap and without jitter, the next attempt waits m times as long, up to rounding down |
| Backoff.DelayIsBounded | internal/delivery/backoff.go:21-38 | a delay lies between the floor of (1 - jitter) * min(base * m^n, cap) and the floor of that minimum, which is at most the cap |
| Backoff.DelayGrows | internal/delivery/backoff.go:22-26 | without jitter a later attempt never waits less |
| Backoff.WaitingIsBounded | internal/delivery/worker.go:239-261 | in any run the delays of a task that was not redelivered add up to at most (MaxAttempts - 1) * cap, and for m > 1 to at most base * (m^MaxAttempts - m) / (m - 1) |
| Shutdown.StopIsGraceful | internal/delivery/worker.go:122-144 | once Stop has returned, on either path, no worker is inside ProcessMessage or in its loop, and every received message has been settled |
| Shutdown.NothingIsConsumedAfterStop | internal/delivery/worker.go:76-112 | from then on no message is received or settled |
| Shutdown.SettledOnce | internal/delivery/worker.go:97-108 | a message is acknowledged or rejected only once |
| Shutdown.StopIsNeverStuck | internal/delivery/worker.go:122-144 | a Stop that has not returned can always move on without a timeout or a new message |
| Shutdown.StopReturns | internal/delivery/worker.go:76-144 | any stretch of a run is bounded by the work left at its start plus four steps per message received, so Stop returns once messages stop coming |
| References.MatchAtIsTheRegex | internal/mapping/engine.go:21 | the position-wise matcher finds exactly the strings the regular expression describes |
| References.EveryMatchIsCovered | internal/mapping/engine.go:334-343 | leftmost matching skips nothing: wherever the expression matches, a listed match starts there or covers the position |
| References.MatchesAreMatches | internal/mapping/engine.go:334-343 | every listed match is one, and listed matches do not overlap |
| References.MatchOfItsText | internal/mapping/engine.go:335-338 | matching a match's own text again gives the same scope and path |
| References.Scan | internal/config/loader.go:530-545 | the index-skipping loop reports what its recursive specification reports |
| References.ScannerCoversRegex | internal/config/loader.go:526-545 | every payload reference with a path found by leftmost non-overlapping matching is reported at the same position, cut at its first dot |
| References.ScannerReportsReferences | internal/config/loader.go:532-541 | every report is a payload reference of the regular expression at that position |
| References.ReportIsListedIff | internal/config/loader.go:530-545 | a report is a payload reference found by leftmost non-overlapping matching exactly when it does not start inside a listed item reference |
| References.ScannerAgreesIff | internal/config/loader.go:530-545 | scanner and expression give the same payload references of a string exactly when no report is nested in an item reference |
| References.ScannerReportsMore | internal/config/loader.go:530-545 | nesting does occur: a family of strings with one report and no payload match |
| References.CutIsTheFirstKey | internal/config/loader.go:536-538 | the cut is the first key the engine looks up exactly when the path does not start with a dot |
| References.SplitJoins | internal/mapping/engine.go:367 | splitting a path at its dots loses nothing |
| References.TokensSpellTheString | internal/mapping/engine.go:315-345 | the source texts of a string's tokens concatenate back to it |
| References.OneTokenIsACoveringMatch | internal/mapping/engine.go:323 | the whole string is one reference exactly when its first match covers it |
| Engine.ResolveFieldRendersTokens | internal/mapping/engine.go:315-345 | resolving a string is rendering its tokens in order, each once; the typed branch is taken exactly when the token list is one reference; the `TemplateValues` rows say what a reference stands for |
| Engine.GetNestedField | internal/mapping/engine.go:363-384 | the loop finds what following the path's segments recursively finds |
| Engine.WalkComposes | internal/mapping/engine.go:363-384 | a longer path continues where the shorter one led, and leads nowhere if that is no object |
| TemplateValues.BareReferences | internal/mapping/engine.go:350-359 | `@{payload}` stands for the payload and `@{item}` for the current item, as they are |
| TemplateValues.ReferencesToKeys | internal/mapping/engine.go:38-48 | a reference to a key stands for that field of the payload or of the item, and for null if there is none or the item is no object |
| TemplateValues.ReferencesToPaths | internal/mapping/engine.go:363-384 | a reference to a longer path goes on from the first key's field, and stands for null if that is no object |
| TemplateValues.NestedValueIsReached | internal/mapping/engine.go:363-384 | a value nested under any keys is what the path of these keys resolves to, in both scopes |
| TemplateValues.TextsConcatenate | internal/mapping/engine.go:333-345 | text before a reference stays, the reference puts in the text of its value, what follows is resolved on its own, and the result is a string |
| References.JoinSplits | internal/mapping/engine.go:367 | segments without a dot are what their joined path is split into |
| Conversions.IntegerTruncates | internal/mapping/engine.go:398-399 | a float that fits 64 bits loses its fraction, toward zero |
| Conversions.TruthSurvivesInteger | internal/mapping/engine.go:392-435 | going through an integer keeps whether a number counts as true, except exactly for the fractions that become zero |
| Conversions.ZeroIsFalse | internal/mapping/engine.go:430-435 | an integer or float converts to false exactly when it is zero and to true exactly when it is not |
| Conversions.TextsOfZeroAndOne | internal/mapping/engine.go:428-441 | the decimal text of an integer converts to a boolean exactly for 0 and 1, and then to the same as the integer |
| Conversions.BooleansOfTexts | internal/mapping/engine.go:436-441 | six spellings each convert to true and to false, every other text fails |
| Conversions.NumbersOfTexts | internal/mapping/engine.go:409-424 | numbers stay as they are; a text converts to the float it parses as, and fails exactly when it does not parse |
| Conversions.ParseIntIsDecimal | internal/mapping/engine.go:400-405 | a text is an integer exactly if it is digits after at most one sign and within 64 bits, and its value is the one its decimal places denote |
| Conversions.IntegerSurvivesText | internal/mapping/engine.go:388-404 | every 64-bit integer comes back from its decimal text |
| Conversions.TextSurvivesInteger | internal/mapping/engine.go:392-405 | a text that parses as an integer comes back from it exactly when it is canonical: no plus sign, leading zero or negative zero |
| Templates.ResolveNode | internal/mapping/engine.go:172-207 | the answer is a possible result exactly when every visited child resolves, else a failure of a child that is visited; recursion ends on the template's size alone |
| Templates.ResolveObject | internal/mapping/engine.go:181-193 | keys are visited in any order, each once, losing a leading double dollar; a later key overwrites |
| Templates.ResolveArray | internal/mapping/engine.go:194-203 | element by element, in order, stopping at the first failure |
| Templates.ResolveSourceDirective | internal/mapping/engine.go:213-254 | $each takes precedence; otherwise extract, then convert, then format |
| Templates.ResolveEachDirective | internal/mapping/engine.go:260-299 | one result per source element in order, each under the same payload with the element as item |
| TemplateValues.EachElement | internal/mapping/engine.go:260-299 | a successful $each has as many results as its source has elements, each an answer of the template with that element as item; a source that is no array is the error |
| TemplateValues.EachMapsKeys | internal/mapping/engine.go:260-299 | with a lone item reference as template the results are that field of each element, with a payload reference the payload's own field each time |
| TemplateValues.SourceAlone | internal/mapping/engine.go:219-255 | a directive with neither $type nor $format yields its source's value |
| TemplateValues.TypeAlone | internal/mapping/engine.go:231-241 | with $type alone it yields the conversion of that value or its error |
| TemplateValues.FormatAlone | internal/mapping/engine.go:244-251 | with $format alone it yields the date of an integer or of a text that is one, and an error for any other text |
| TemplateValues.KeysLoseTwoDollars | internal/mapping/engine.go:181-192 | the result has one field for each key: a key that starts with two dollars loses exactly those two, any other key stays, and each field is an answer of a child under that name |
| TemplateTheorems.SuccessIsDetermined | internal/mapping/engine.go:181-192 | success or failure does not depend on the order of keys: there is a result exactly when every visited child resolves, and a failure exactly when not |
| TemplateTheorems.OrderIsIrrelevantIff | internal/mapping/engine.go:181-192 | the object built is the same for every order exactly when keys that become equal by stripping were resolved to equal values |
| TemplateTheorems.DistinctKeysGiveOneResult | internal/mapping/engine.go:181-192 | a template whose keys stay distinct after stripping has at most one result |
| TemplateTheorems.IntegersAreFormattedAsDates | internal/mapping/engine.go:232-252 | conversion comes before formatting: with `$type: integer` the date is that of exactly the converted integer, and there is none exactly when conversion fails |
| TemplateTheorems.BooleansAreNoDates | internal/mapping/engine.go:232-252 | a directive that asks for a boolean and a date always fails |
| Extraction.ExtractPayloadRefs | internal/config/loader.go:520-524 | the list holds exactly the fields that some string in the template mentions |
| Extraction.ExtractPayloadRefsRecursive | internal/config/loader.go:526-556 | appends the mentioned fields to the shared list and keeps what is there |
| Noninterference.TemplatesReadOnlyMentionedFields | internal/mapping/engine.go:172-384 | payloads that agree on the extracted fields give a tidy template the same results and failures, through nested $each scopes too |
| Noninterference.FieldDependsOnMentions | internal/mapping/engine.go:315-345 | the same for one string |
| Noninterference.LoneReferenceIsCheckedIff | internal/config/loader.go:532-541 | a lone payload reference reads only what is extracted exactly when it has a path that does not start with a dot |
| Loader.Loader.RecordRoutes | internal/config/loader.go:323-338 | a routes file sets one entry to its rules in order or to an error, and touches no other |
| Loader.Loader.RecordSchema | internal/config/loader.go:339-350 | a schema file sets one entry |
| Loader.Loader.RecordVendor | internal/config/loader.go:353-389 | a vendor file sets one entry, an error if the file, its base delay or its maximum delay cannot be parsed |
| Loader.Loader.RecordContract | internal/config/loader.go:391-427 | a contract file sets the entry of its event, or an error entry under the event or file name |
| Loader.Loader.ValidateCrossConfig | internal/config/loader.go:560-611 | in place: usable routes name only vendors with an entry, usable contracts mention only declared fields, offending entries get the reason, all others are unchanged, and consistent maps are left alone |
| Loader.Loader.ValidateTwice | internal/config/loader.go:560-611 | after a second call both maps equal those the first call left |
| Loader.Loader.CheckRoute | internal/config/loader.go:563-575 | an out-of-order route is replaced by the error naming its first missing vendor |
| Loader.Loader.CheckContract | internal/config/loader.go:578-609 | an out-of-order contract is replaced by the error naming a mentioned field that is not declared |
| Loader.CheckedContractIsKeptIff | internal/config/loader.go:578-609 | a usable contract whose event has a loaded schema survives exactly if that schema has no properties object or every mentioned field is one of its keys |
| Loader.AcceptedBodyReadsOnlyDeclaredFields | internal/config/loader.go:578-609 | the mapping body of an accepted contract depends only on the schema's declared fields |
| Loader.AcceptedRequestReadsOnlyDeclaredFields | internal/mapping/engine.go:67-98 | body and path together depend only on declared fields when, besides, the first key of every payload reference in the path is declared |
| Loader.MentionsAreFirstKeys | internal/config/loader.go:600-608 | running the same reference check over the path would ensure that, for paths without a bare payload reference or a leading dot |
| Loader.PathIsNotChecked | internal/mapping/engine.go:89 | no path takes a contract out of order; a path that is one payload reference depends only on declared fields exactly when its first key is declared |
| Loader.Loader.GetDeliverySpec | internal/config/loader.go:639-668 | the stored contract with a retry policy filled in, or the first reason why there is none |
| Loader.Loader.GetRoutingRules | internal/config/loader.go:671-681 | the stored rules or error; after the check the rules handed out name only vendors with an entry |
| Schema.ValidateNode | internal/ingestion/validator.go:73-202 | for any order of properties, the errors are exactly the complaints due at every reachable location, each as often as due |
| Schema.ValidateObject | internal/ingestion/validator.go:82-107 | the same for objects: missing required fields and the errors of the properties present |
| Schema.ValidateArray | internal/ingestion/validator.go:108-122 | the same for arrays |
| Schema.ValidateScalar | internal/ingestion/validator.go:124-198 | the same for strings, integers, numbers and booleans |
| Schema.OrderDoesNotMatter | internal/ingestion/validator.go:101-106 | two runs report the same multiset of errors, hence equally many |
| Schema.NoErrorsIffConforms | internal/ingestion/validator.go:73-202 | no error exactly when the value conforms: every required name has a value that is not null, each value has the constructor its type name admits, strings are in a non-empty enum, floats under `integer` are 64-bit integers within both inclusive bounds, and so on downwards |
| Schema.ComplaintsMean | internal/ingestion/validator.go:73-202 | each kind of error is reported at a location exactly when its condition on schema and value, spelled out, holds there |
| Schema.SupplyingRequired | internal/ingestion/validator.go:91-98 | giving an object a conforming value for a field it lacked or had as null removes exactly the errors that this field is missing, one for each time it is required |
| Schema.RemovingRequired | internal/ingestion/validator.go:91-98 | taking such a field away adds exactly them |
| Schema.ErasingChangesNoError | internal/ingestion/validator.go:60-70 | keywords the checker ignores for a type can be erased everywhere without changing an error |
| SchemaCache.Validator.ValidateMap | internal/ingestion/validator.go:34-57 | between other callers' steps, the answer is that of parsing afresh, and every cache entry is the parse of its map |
| SchemaCache.CacheAgreesWithFreshParsing | internal/ingestion/validator.go:34-57 | in every interleaving of look-ups, parses and stores, each call uses what a fresh parse gives |
| Submission.SameKeySameAnswer | internal/ingestion/service.go:35-55 | all calls with one caller and key are answered with the same id, event type and payload; calls that differ in caller or key get different ids |
| Submission.FirstSubmissionWins | internal/db/postgres/db.go:28-39 | the first upsert under a key decides event type and payload for good, and every call with that caller and key is answered with them |
| Submission.AtMostOneTrigger | internal/ingestion/service.go:47-52 | with a strictly advancing clock at most one trigger is published per notification, and exactly one unless publishing failed |
| Submission.TriggersAreCounted | internal/db/postgres/db.go:30-35 | in general triggers published, lost or due number one plus the resubmissions at the instant of creation |
| Submission.NeverAnnouncedIff | internal/ingestion/service.go:46-52 | with a strictly advancing clock, once no call is about to announce a stored notification: no trigger is published for it in this or any later state exactly when its one publish failed |
| Submission.SameInstantPublishesTwice | internal/db/postgres/db.go:34 | two submissions at one instant publish two triggers |
| Ingestion.Service.Submit | internal/ingestion/service.go:35-55 | a conforming payload of a registered event ends in the answer stored under its key or in a database error, and nothing else does; every refusal writes nothing and has its exact reason |
| Ingestion.Service.ValidateSchema | internal/ingestion/service.go:79-95 | accepted exactly if registered, parsed and conforming; unregistered, unparsable and non-conforming are told apart exactly, the last with all its errors |
| Ingestion.Service.UpsertNotification | internal/db/postgres/db.go:28-39 | inserts the caller's row under a fresh id, or on conflict only moves the update time; new exactly when both times are equal; no other row changes |

## Left out

- Server.Server.Interfere: stands for any steps of other participants; only its contract is used, its body does none.
- Server.Server.InterfereDispatcher: the same for dispatchers.
- SchemaCache.Validator.Interfere: the same for other callers of the validator.
- Ingestion.Service.Interfere: the same for other submissions.
- Loader.AcceptedBodyReadsOnlyDeclaredFields: says nothing of `raw` bodies, which depend on the text of `json.Marshal`.
- Backoff.WaitingIsBounded: over reals and an integer power; float rounding and the overflow of a duration are not modelled.
- Conversions.IntegerTruncates: the text of floats, dates and composite values, float parsing and out-of-range truncation are parameters (`Runtime`); NaN and infinities are not modelled.
- Schema.ValidateNode: errors carry a structured location and a kind; their message texts are not modelled, nor is the `Field` text, in which a dot inside a key is ambiguous.
- Loader.PathIsNotChecked: for paths with several references or with literal text the declared keys are proved sufficient, not necessary, since the texts of different values may coincide.
- Shutdown.StopReturns: select chooses freely between the close signal and a ready message, so how many messages are still received after the signal is not bounded.
- Shutdown.StopIsGraceful: a transition system rather than objects, because wait groups, channels and goroutines have no imperative counterpart in Dafny; a second call of Stop, which panics, is not modelled.
- Server.Server.ProcessMessage: whether a request can be built is a free choice there, not the answer of the mapping engine.
- Delivery messages that do not parse never reach the protocol; they are modelled in `Shutdown` only.
- A failing acknowledgement is not a step of its own: the broker redelivers, as after a crash.
- Queues are multisets: order, and expired messages waiting behind unexpired ones in the retry queue, are not modelled.
- Real time: expiry is possible as soon as a message carries an expiration.
- Strings are sequences of characters; bytes that are not valid UTF-8 are not modelled.
- The cache by address assumes that schema maps live as long as the validator and never change after loading.
- Transactions, connection failures and other database semantics beyond single-row atomic statements; all calls may fail without effect, none fails after taking effect.
- HTTP handlers, envelopes, pagination, key generation, authentication and header injection, plugin bodies, YAML parsing, directory walking, logging.
