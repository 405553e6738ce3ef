# Omaha client: a verified model

This project models the Omaha update-check client and proves what it promises. The client is a
state machine that asks a server for updates, installs them, waits for a reboot and starts again from
what its storage kept. Everything around it may behave in any way: the server, the HTTP layer, the
policy, the installer, the clocks, the random numbers, the storage and the scheduler are inputs, and
the theorems hold for all inputs. `dafny verify dfyconfig.toml` checks the whole project.

## How the model is built

* `UpdateFlow` and `ClientRun` give the client as functions from a `World` (context, storage, apps and a
  record of acts) and inputs to a `World`. `StateMachine` is the same client as the object it is, with
  fields that its methods update step by step and with the loops of the original; every method is proved
  to do to the state, to storage and to the record exactly what its function says. `Storage.MemStorage`,
  `AppSet.VecAppSet`, `RequestBuilder.RequestBuilder`, `AsyncGenerator.Generator` and `Cup.CupRequest`
  are classes in the same way.
* The record lists what an observer can tell: events yielded, metrics, policy queries with their
  answers, requests and how they ended, waits, commits, control requests and replies. A theorem about
  whole histories is about a fold over the record (`Trace.Fold`), that is, about an observer who reads the
  record from its beginning: `Lifecycle` watches the shape of a cycle, `Control` the requests to check,
  `Bookkeeping` storage, `Histories` the counters, `Cohorts` the cohorts and the user counting, `Retry` the
  traffic, `Outcomes` the reports, `Transcript` everything else that a check shows, and `Waits` the turn around
  it. `Requests` says what is in each request, and `Restarts` what is left of an update after the reboot.
  `Observers` says which part of the client can show which acts, so an observer who ignores these acts need not
  look into that part.
* Every point where the client waits for several things at once is decided by the inputs. Control
  requests received during a check are woven into its record by `Trace.Merge`, in any way that keeps the two
  orders.
* Storage has a cached and a durable part. Any write and any commit may fail; a failed one leaves storage as
  it was. A restart finds what is durable. `History` chains any number of lives of the process. A life ends
  with its inputs, right after any of its commits, also one made in the middle of a check or a ping, or, when
  the power fails, after any act at all; what is left is what was committed last.
* `AsyncGenerator` models the generator that turns the state machine into a stream; `HttpUri`, `Cup` and
  `MockServer` the signed exchange; `Clock`, `Text` and `Version` the conversions.

## What was found

* The pauses between attempts are promised to be one, two and four seconds
  (omaha-client/src/state_machine.rs:813), but three attempts have two pauses: the third never comes
  (`Retry.PausesDouble`).
* The number of attempts reported for a check is the number of requests sent, except that it is one higher exactly
  when the last attempt could not be built (`Retry.RequestsSent`).
* A stored time of `i64::MIN` microseconds does not survive being read and written again; all others do
  (`Clock.MicrosRoundTrip`).
* Truncating a time agrees with what storage keeps only at or after the epoch; before it, truncation always
  gives one microsecond less, also to whole microseconds, and truncating again moves the time further
  (`Clock.TruncateAgreesWithStorage`, `Clock.TruncateIdempotent`).
* When the plan id is stored, its time is not, and the plan id cannot be removed again, storage pairs the new plan
  with the time of an older one (`Histories.TornRecordingBreaksThePair`; `TornPlan.TornHistory` is a history in which
  such a pair becomes durable).
* The request builder keeps the app of the first mention of an id. Two adjacent operations of different kinds may
  be swapped exactly when they carry the same app or the id of one of them was mentioned before
  (`RequestBuilder.FirstMentionDecides`).
* With two keys of one id the client verifies with the last and the mock server signs with the first
  (`MockServer.LookupsAgreeIff`). With a service URL that already has a query the mock server reads the wrong
  pair (`MockServer.ExchangeNeedsBareQuery`).
* `extend_dir_with_path` keeps the query only if the added path has no question mark (`HttpUri.ExtendKeepsQuery`).

## Model

| member | source | states |
|---|---|---|
| `BestEffort.EventReportsAreBestEffort` | omaha-client/src/state_machine.rs:714-1188 | two checks whose event reports turn out differently in any way return the same reboot decision, show the same states, have the same context in memory but for the poll interval and the same cache but for the context's three keys, and differ in their records only in the reports, lost-event metrics, protocol-state events and commits; when the final write does not fail, what is durable differs at most in the stored poll interval |
| `BestEffort.ReportInstallsKeepsCore` | omaha-client/src/state_machine.rs:1018-1079 | reporting an installation, whatever becomes of the reports, leaves context, apps, storage and record alone but for the poll interval and the reports themselves |
| `Lifecycle.EveryRunIsCycles` | omaha-client/src/state_machine.rs:297-430 | what any run shows is complete cycles, each begun by CheckingForUpdates, going one of the listed ways, telling exactly one result and ending with Idle, and then the beginning of one more, which is empty whenever the client waits for its next check |
| `Lifecycle.CheckLives` | omaha-client/src/state_machine.rs:595-669 | a check started at rest ends with its result told, and wants a reboot exactly when it returned one |
| `Lifecycle.HandleResponseLives` | omaha-client/src/state_machine.rs:850-1154 | every way of handling a response leaves the record in a stage that fits what the check returned |
| `Lifecycle.EveryRebootIsWarranted` | omaha-client/src/state_machine.rs:432-489 | every reboot comes in a cycle in which an installation finished with no app failed and the policy wanted a reboot, is the first of its cycle, and the policy was last asked whether this very installation may be followed by one and said yes |
| `Transcript.CheckShows` | omaha-client/src/state_machine.rs:595-1154 | everything that a check shows besides its traffic, act by act and with all values: states, response times, intervals, progress, durations, errors, the reason of a failure, attempts, policy queries and results, as a function of the replies, the clocks, the plan, the policy and the installer, and of the schedule, the counts and the stored plan before it |
| `Transcript.CheckLeaves` | omaha-client/src/state_machine.rs:595-669 | what a check leaves in memory: when the server was last heard of and asked, the failures in a row, and each app with every cohort field and the day that the answer has for it |
| `Transcript.PingShows` | omaha-client/src/state_machine.rs:1191-1238 | the same for a ping: only an answer that can be read resets the failures, counts as an update, is announced and is taken over |
| `Transcript.CheckSetsTheDays` | omaha-client/src/state_machine.rs:1345-1366 | after a successful check the next ping carries, for each app in the answer, the elapsed days of that answer as both of its dates |
| `Transcript.PingSetsTheDays` | omaha-client/src/state_machine.rs:1191-1238 | the same after an answered ping |
| `Waits.WaitFollowsScript` | omaha-client/src/state_machine.rs:432-489 | the wait for a reboot act by act: the policy is asked at once, every half hour and whenever somebody asks on demand, and the reboot comes exactly after the first yes |
| `Waits.TurnFollowsScript` | omaha-client/src/state_machine.rs:326-429 | a turn around its check act by act: the report about the reboot before with its duration, the wait for the check, the decision with the options asked for or the default ones, and the wait for the reboot if one is wanted |
| `Waits.TurnAsksAsAllowed` | omaha-client/src/state_machine.rs:366-421 | a turn asks the server iff the decision is one of the two positive ones, and then with the very parameters of the decision and for all apps of the client |
| `Waits.AwaitAnnounces` | omaha-client/src/state_machine.rs:258-295 | the time the policy computes is put in the schedule, announced and waited for, and nothing else changes |
| `Control.EveryRunServesItsRequests` | omaha-client/src/state_machine.rs:350-421 | control requests are answered one at a time, Started or Throttled by the decision when idle and AlreadyRunning otherwise, and there are as many replies as requests whenever the record ends at rest |
| `Control.EveryRequestIsReceived` | omaha-client/src/state_machine.rs:350-421 | in each turn of the loop exactly the requests made are received, in their order, up to the step that allows the reboot |
| `Control.RebootQueriesCarryOnDemand` | omaha-client/src/state_machine.rs:448-483 | a query whether to reboot says on demand exactly when the last check was asked for on demand or an on-demand request came since |
| `Control.RebootRoundKeepsTheDesk` | omaha-client/src/state_machine.rs:448-483 | each round of the wait answers what it receives and passes on the options as upgraded so far |
| `Retry.CheckFollowsScript` | omaha-client/src/state_machine.rs:734-825 | the whole traffic of a check follows from the poll interval before it and the replies: a request per attempt up to the first that nothing follows, a pause between any two, then the number of attempts |
| `Retry.AttemptsFollowScript` | omaha-client/src/state_machine.rs:734-820 | attempt k+1 is made if and only if k is below three, reply k is a transport failure not due to the user or an HTTP status, and no poll interval is in force after it; the result is that of the last reply |
| `Retry.SomeAttemptIsLast` | omaha-client/src/state_machine.rs:793 | the loop ends after at most three attempts, whatever the replies |
| `Retry.RequestsSent` | omaha-client/src/state_machine.rs:822-825 | the number reported for a check is the number of requests sent, plus one exactly when the last attempt could not be built |
| `Retry.PausesDouble` | omaha-client/src/state_machine.rs:812-819 | every pause is within half a second of one or two seconds, by the attempt before it, and none is longer |
| `Retry.RequestConcludes` | omaha-client/src/state_machine.rs:1252-1309 | how a request ends, which interval is in force after it, and every act on the way, from the reply alone: a status outside the two hundreds fails with that status, an unverified response says nothing, and a changed interval is announced and committed before the request ends |
| `Retry.DictatedSeconds` | omaha-client/src/state_machine.rs:1278-1294 | a header with a number is that many seconds up to a day, a day for more, and nothing for more than 64 bits |
| `Retry.DictatedUnlessNoNumeral` | omaha-client/src/state_machine.rs:1278-1294 | there is no interval iff there is no header or it is no 64-bit numeral |
| `Outcomes.CheckHasOutcome` | omaha-client/src/state_machine.rs:714-1154 | the result of a check is a function of the replies, the poll interval before it, the plan, the policy and the installer, and of nothing else |
| `Outcomes.CheckIsReported` | omaha-client/src/state_machine.rs:829-1079 | which events the server is told about a check, in which order, and that exactly the events of failed reports are counted as lost |
| `Outcomes.EventOpsAreTheOffered` | omaha-client/src/state_machine.rs:1159-1188 | a report is about exactly the client's apps that the response offers an update for, with the version offered last |
| `Outcomes.LastUpdateTimeMeansAnswered` | omaha-client/src/state_machine.rs:604-655 | the last update time moves exactly when the server answered, to the end of the check |
| `InstallResults.WalkPairs` | omaha-client/src/state_machine.rs:1081-1106 | taking results from the front never runs out and gives each app with an update the result that stands beside it in the list of such apps |
| `InstallResults.EventsMatchResponses` | omaha-client/src/state_machine.rs:1022-1055 | the events pair apps and results as the responses do: the server is told of each known app the outcome that its response records, and of no other |
| `InstallResults.VerdictMeans` | omaha-client/src/state_machine.rs:610-617 | the fold over the responses says failed iff some app failed, succeeded iff none failed and one was updated, else nothing |
| `InstallResults.VerdictIgnoresOrder` | omaha-client/src/state_machine.rs:610-617 | the order of the responses does not matter to the verdict |
| `InstallResults.SuccessComputationsAgree` | omaha-client/src/state_machine.rs:998-1118 | no app failed, the list of errors is empty, and the verdict is not failed: three computations, one answer |
| `InstallResults.InstallationReturns` | omaha-client/src/state_machine.rs:965-1152 | an installation always ends in a successful check, and a reboot is wanted iff no app failed and the policy says so |
| `Histories.PollIntervalsAreBounded` | omaha-client/src/state_machine.rs:1277-1301 | over any number of lives, whatever storage does and wherever a life ends, every poll interval ever in force is at most a day and every stored one is whole seconds that fit their stored form |
| `Histories.BooksAreExact` | omaha-client/src/state_machine.rs:1277-1414 | while storage does not fail, over any number of lives, each of which may end after any commit, also in the middle of a check: whenever a request returns, the durable poll interval is the one in force; each first-seen time given out is that of the first call of the current streak of equal plans, cut to the microsecond when read back; every durable snapshot pairs the plan with it and has the interval announced last |
| `Histories.RecordsKeepTheirPromises` | omaha-client/src/state_machine.rs:1390-1414 | the same read off the record itself: what each call returned, what was durable when each request had concluded, and what each snapshot holds |
| `Histories.PlansKeepTheirTimes` | omaha-client/src/state_machine.rs:1390-1414 | whatever storage does and wherever a life ends, until a recording is torn, a durable plan comes with a time at which that very plan was seen |
| `Histories.TornRecordingBreaksThePair` | omaha-client/src/state_machine.rs:1403-1411 | recording a new plan leaves a sound pair unless the time write and the removal both fail after the plan was written, and then exactly unless the left-over time is one of the new plan |
| `TornPlan.TornHistory` | omaha-client/src/state_machine.rs:1403-1411 | on a new device, two checks after which a plan is durable with a time at which it was never seen |
| `Transcript.PlanIsRecorded` | omaha-client/src/state_machine.rs:1390-1414 | a new plan is durable at once with its time when no write fails; when one fails, storage is as before or without a plan, unless the new one cannot be taken back |
| `Histories.CountersAreExact` | omaha-client/src/state_machine.rs:671-710 | over any number of lives without storage faults, each of which may end after any commit, the failure counter is the number of failed checks and pings since the last success, the stored install counter the number of failed installations since the last successful one, and the attempts metrics report one more |
| `Histories.SnapshotsKeepTheCounts` | omaha-client/src/state_machine.rs:671-710 | every snapshot that ever became durable, also one made in the middle of a check, holds the counts of its moment |
| `Histories.LifeLeavesItsLastCommit` | omaha-client/src/storage.rs:27-36 | what is durable at the end of a life is what its record shows as committed last, and if it committed nothing, what it found |
| `Histories.PowerLossFallsBack` | omaha-client/src/storage.rs:27-36 | losing power after any act leaves storage as an end right after the last commit before would, or as the life found it |
| `Histories.LossesAreCommittedEnds` | omaha-client/src/storage.rs:27-36 | a history whose lives end anywhere leaves storage as one whose lives end after commits, and the record of that one is the first without what the losses of power undid |
| `Histories.SurvivingRecordIsExact` | omaha-client/src/state_machine.rs:671-710 | over any number of lives in which no write fails, wherever each of them ends, durable storage holds the failure count, the install count, the poll interval and the plan with the time of the first call in its streak, all as they follow from the record without what the losses of power undid |
| `Histories.CounterIsExactInMemory` | omaha-client/src/state_machine.rs:1206-1227 | during one life, whatever storage does and whatever it held before, the failure counter goes on from its start by failed checks and pings and is reset by successes, and the attempts metrics report one more |
| `Restarts.FinishedUpdateIsMarked` | omaha-client/src/state_machine.rs:1121-1143 | a check that installed a system update without failures leaves its finish time and the version offered in durable storage, whatever else fails |
| `Restarts.FinishedUpdateIsReported` | omaha-client/src/state_machine.rs:306-348 | from the installation over the wait for the reboot to the next life: if that life runs the version offered, it reports the time from the finish to its start, once, in the first turn whose clocks allow it; if it runs another, it reports nothing |
| `Restarts.MarkedUpdateIsReported` | omaha-client/src/state_machine.rs:312-348 | the same from what is in storage |
| `Restarts.ReportIsMadeOnce` | omaha-client/src/state_machine.rs:331-348 | while the clocks do not allow it nothing changes; once the report is made, nothing is pending, and after a restart neither if its keys could be removed |
| `Restarts.InvalidAppsDoNothing` | omaha-client/src/state_machine.rs:301-308 | with an app without an id or with a version of zeros only, the client does nothing at all |
| `Bookkeeping.NotePollKeeps` | omaha-client/src/state_machine.rs:1295-1301 | taking over a dictated interval keeps the books: announced, bounded, and durable at once if storage does not fail |
| `Bookkeeping.PollFits` | omaha-client/src/state_machine/update_check.rs:89-97 | an interval within the bound fits its stored form and comes back from it |
| `Durability.CheckIsDurable` | omaha-client/src/state_machine.rs:595-710 | when a check has been written without a fault nothing is uncommitted, a rebuild gives back failure count, poll interval, last update time cut to the microsecond, and every app's cohort and user counting where not preset, and saving and loading again changes nothing |
| `Durability.PingIsDurable` | omaha-client/src/state_machine.rs:1191-1238 | the same after a ping |
| `Durability.AnsweredCheckIsRemembered` | omaha-client/src/state_machine.rs:604-669 | after a check that the server answered, written without a fault, a rebuild finds the wall time of its end as the last update time, to the microsecond |
| `Durability.AnsweredPingIsRemembered` | omaha-client/src/state_machine.rs:1191-1238 | the same after a ping whose answer could be read |
| `Durability.WrittenReloads` | omaha-client/src/state_machine/builder.rs:276-310 | a rebuild from storage that was just written gives the remembered part of the context and refills every app |
| `Durability.ReloadedWritesNothing` | omaha-client/src/state_machine/update_check.rs:75-121 | a client that was just loaded, with nothing preset, has nothing to write |
| `Cohorts.EveryRequestCarriesItsCohorts` | omaha-client/src/state_machine.rs:600-1235 | every app in every check, ping and event report of a life carries its cohort from the start, overlaid field by field by the first matching entry of every successful answer so far, and every ping the days of the last such answer, whatever storage does |
| `Cohorts.EveryLifeCarriesItsCohorts` | omaha-client/src/common.rs:94-140 | over any number of lives of a device, wherever each of them ends and whatever fails but the saving at the end of checks and pings, every request carries the overlay of the answers heard in its life on those that earlier lives had committed |
| `Cohorts.KeptAtTheLastCommit` | omaha-client/src/state_machine.rs:704-710 | what a restart is expected to fall back to is what was expected at the last commit |
| `Cohorts.DurableRecalls` | omaha-client/src/app_set.rs:41-62 | what was committed last gives back, app by app, what a restart is expected to fall back to |
| `Cohorts.AnswersAccumulate` | omaha-client/src/protocol.rs:54-67 | all answers so far can be overlaid on each other first and on the loaded cohort last |
| `Cohorts.UpdatedAppsMatch` | omaha-client/src/app_set.rs:28-37 | taking over an answer moves each app's cohort and user counting as an observer of the answers expects |
| `Protocol.CohortOverlayIsMonoid` | omaha-client/src/protocol.rs:54-67 | overlaying is associative and the empty cohort is its identity |
| `RequestBuilder.BuilderGroups` | omaha-client/src/request_builder.rs:147-225 | after any operations there is one entry per id in first-seen order, with the first-seen app, a check or ping iff one was added for the id, and all its events in order |
| `RequestBuilder.IdsAreMentioned` | omaha-client/src/request_builder.rs:176-190 | the ids of the entries are distinct and are exactly those mentioned |
| `RequestBuilder.AdjacentKindsCommute` | omaha-client/src/request_builder.rs:195-225 | swapping adjacent operations of different kinds on the same app changes nothing, wherever they stand |
| `RequestBuilder.FirstMentionDecides` | omaha-client/src/request_builder.rs:176-225 | whatever comes before and after, swapping two adjacent operations of different kinds changes nothing iff they carry the same app or an earlier operation mentioned the id of one of them |
| `RequestBuilder.RequestBuilder.InsertAndModifyEntry` | omaha-client/src/request_builder.rs:176-190 | the search and update in place add one operation to the contents |
| `RequestBuilder.RequestBuilder.Build` | omaha-client/src/request_builder.rs:252-293 | before any decoration, the request describes each entry in order: the app as it is, with its update check, its events, and its day if it is pinged |
| `Requests.EveryRequestIsFramed` | omaha-client/src/request_builder.rs:252-295 | address, headers and every field of the body but the apps, for every request of the client |
| `Requests.CheckRequestAsksForAll` | omaha-client/src/state_machine.rs:728-734 | a check asks about every app of the client in order, each as it is, with the two flags of the policy, a ping with its day and no events |
| `Requests.PingRequestPingsAll` | omaha-client/src/state_machine.rs:1191-1206 | a ping is scheduled and pings every app of the client with its day, and asks and tells nothing |
| `Requests.EventReportTells` | omaha-client/src/state_machine.rs:1159-1188 | a report tells of exactly the apps of the client that are offered an update, each with the one event, its version, the version offered last and the download time in milliseconds |
| `Requests.UnreadableIsToldOfAll` | omaha-client/src/state_machine.rs:838-847 | that a response could not be read is told of every app |
| `Requests.InstallReportTells` | omaha-client/src/state_machine.rs:1018-1063 | the report of an installation has one entry per known app, with all its results in order, as finished downloads, deferrals or installation errors |
| `Requests.CompletionFollowsDownload` | omaha-client/src/state_machine.rs:1022-1079 | the completion is reported for the apps of which it was told that their download finished |
| `RequestBuilder.RequestBuilder.constructor` | omaha-client/src/request_builder.rs:164-172 | a new builder is empty |
| `RequestBuilder.RequestBuilder.SetRequestId` | omaha-client/src/request_builder.rs:228-230 | only the request id changes |
| `RequestBuilder.RequestBuilder.SetSessionId` | omaha-client/src/request_builder.rs:233-235 | only the session id changes |
| `Observers.RequestOfFrom` | omaha-client/src/request_builder.rs:103-129 | a request made for some apps is about these apps as they are, and no other |
| `Observers.CheckShowsOnlyChecks` | omaha-client/src/state_machine.rs:595-669 | nothing a check shows looks like a control request, a reboot query or the return to idle |
| `AsyncGenerator.StreamIsItemsThenResult` | omaha-client/src/async_generator.rs:157-197 | for any number of polls the stream has given out the first of the items sent, in order and each once, then the result, and nothing else; and all of it after one poll per item, one for the result and one per pause |
| `AsyncGenerator.TerminatedFromResultOn` | omaha-client/src/async_generator.rs:199-206 | `is_terminated` holds exactly from the result onward, and exactly then a poll gives None, forever |
| `AsyncGenerator.AdvanceDelivers` | omaha-client/src/async_generator.rs:157-197 | one poll gives out the next thing due, or waits because the task paused, or finds nothing due |
| `AsyncGenerator.PollsConserve` | omaha-client/src/async_generator.rs:157-197 | what was given out and what is still due are always the whole, so the saved result is neither overwritten nor lost |
| `AsyncGenerator.Generator.PollNext` | omaha-client/src/async_generator.rs:157-197 | the poll in place does to task, channel and saved result what the step function says, and finds the place for the result empty when the task returns |
| `AsyncGenerator.Generator.constructor` | omaha-client/src/async_generator.rs:32-41 | a new generator has a live task, an open channel and no result |
| `AsyncGenerator.AdaptersKeepTheirPart` | omaha-client/src/async_generator.rs:79-148 | of a stream, finished or not, one adapter keeps the items and the other the result, if there is one yet |
| `AsyncGenerator.TryStreamKeepsBoth` | omaha-client/src/async_generator.rs:113-122 | the adapter to results keeps the items and, at the end, an error |
| `MockServer.ExchangeSucceeds` | mock-omaha-server/src/lib.rs:205-247 | for matching keys with distinct ids and a service URL without query pairs, the client accepts the server's ETag for every body, key and nonce, plain, quoted or weak |
| `MockServer.EtagIsAccepted` | omaha-client/src/cup_ecdsa.rs:240-339 | the same for any key id known to both sides, latest or historical, given the pair the server reads |
| `MockServer.ExchangeNeedsBareQuery` | mock-omaha-server/src/lib.rs:215-219 | with a service URL that has a query pair the server reads that pair, and panics unless it is named cup2key |
| `MockServer.NoPairIffOnlyAmpersands` | mock-omaha-server/src/lib.rs:215-219 | there is no pair to read exactly when there is no query or only ampersands |
| `MockServer.ServerAnswers` | mock-omaha-server/src/lib.rs:205-247 | when the server gives no ETag, when it panics, and what the ETag is made of otherwise |
| `MockServer.DecorationAddsKeyAndNonce` | omaha-client/src/cup_ecdsa.rs:218-238 | the decorated URL has one parameter more, cup2key with the key id in decimal, a colon and the nonce in hexadecimal; and which URLs are refused how |
| `MockServer.LookupsAgreeIff` | mock-omaha-server/src/lib.rs:78-90 | client and server agree on the key of an id iff the first and the last key with it are a pair |
| `MockServer.PrivateKeys.Find` | mock-omaha-server/src/lib.rs:78-90 | the latest key if it has the id, else the first historical one that has it, else none |
| `MockServer.KeyAndNonceIsPlain` | mock-omaha-server/src/lib.rs:221-222 | the parameter survives form decoding, is cut at its colon, and the key id parses back |
| `Cup.AcceptedIffAuthentic` | omaha-client/src/cup_ecdsa.rs:240-339 | a response is accepted iff it carries the hash of this request and a signature, by the key with the id, over this request, this response and the id and nonce sent |
| `Cup.RefusedBecause` | omaha-client/src/cup_ecdsa.rs:240-296 | which of the faults of a response decides the error it is refused with |
| `Cup.HashBinds` | omaha-client/src/cup_ecdsa.rs:297-315 | equal transaction hashes mean equal requests, responses and parameters, or two different messages among them have the same digest |
| `Cup.SignatureBindsExchange` | omaha-client/src/cup_ecdsa.rs:240-339 | a signature accepted for two exchanges means the same request, response and nonce, or a collision among their digests, or a signature that verifies for two different hashes |
| `Cup.ParseEtagUnquotes` | omaha-client/src/cup_ecdsa.rs:341-358 | quoted and weakly quoted text comes out as it went in, and so does text without quotes |
| `Cup.KeyMapTakesTheLast` | omaha-client/src/cup_ecdsa.rs:206-214 | the map of keys holds the last key of each id |
| `Cup.Handler.DecorateRequest` | omaha-client/src/cup_ecdsa.rs:218-238 | the URI is set iff it parses and takes the parameter, also when serializing the body fails after that; the metadata are body, latest key id and nonce |
| `HttpUri.AppendAddsOneParameter` | omaha-client/src/http_uri_ext.rs:55-71 | succeeds iff key and value are query text and the URI has both a scheme and an authority or neither; then there is one parameter more, at the end, and nothing else changes but an empty path |
| `HttpUri.ExtendKeepsQuery` | omaha-client/src/http_uri_ext.rs:28-53 | the query is kept iff the added path has no question mark, and then the path is extended below the old one |
| `HttpUri.ExtendSucceeds` | omaha-client/src/http_uri_ext.rs:28-53 | a path without a question mark can be added iff it is path text and the URI has both a scheme and an authority or neither, and the errors otherwise |
| `Clock.MicrosRoundTrip` | omaha-client/src/time/complex.rs:730-756 | microseconds to a time and back is the identity above the least number, which gives none |
| `Clock.CheckedMicrosRoundsTowardEpoch` | omaha-client/src/time/complex.rs:730-742 | the stored time lies between the epoch and the given one, less than a microsecond away, and is absent iff the time is 2^63 microseconds or more from the epoch |
| `Clock.CheckedMicrosMonotone` | omaha-client/src/time/complex.rs:730-742 | a later time is never stored as an earlier one |
| `Clock.FromMicrosScales` | omaha-client/src/time/complex.rs:746-755 | the cast and negation modulo 2^64 come to a plain multiplication, also at the least number |
| `Clock.CheckedMicrosStable` | omaha-client/src/time/complex.rs:730-756 | a time stored and read once is stored and read again unchanged |
| `Clock.TruncateAgreesWithStorage` | omaha-client/src/time.rs:103-113 | truncation equals the round trip through storage at or after the epoch, and is one microsecond earlier before it |
| `Clock.TruncateIdempotent` | omaha-client/src/time.rs:103-113 | truncating twice is truncating once iff the time is at or after the epoch |
| `Version.ParsePrintedVersion` | omaha-client/src/version.rs:19-58 | parsing a printed version gives it back |
| `Version.ParseSucceedsExactly` | omaha-client/src/version.rs:44-58 | parsing succeeds iff there are one to four dot-separated 32-bit numerals, and gives their values and then zeros |
| `Version.ParseFailsExactly` | omaha-client/src/version.rs:44-58 | more than four components is the error iff the first four are numerals, and a bad number iff one of them is not |
| `Version.ShortVersionsOrderAsPadded` | omaha-client/src/version.rs:60-74 | a short version equals its padded form and orders by the first component that differs, missing ones counting as zero |
| `Version.FromStr` | omaha-client/src/version.rs:47-58 | the loop over an array computes the parse, with the first faulty component deciding the error |
| `Text.ParsePrinted` | omaha-client/src/version.rs:44-58 | a printed number parses back iff it fits the type |
| `Text.ParseUnsignedMeans` | omaha-client/src/version.rs:44-58 | parsing gives a number iff the text is a numeral for it that fits, with an optional plus sign and leading zeros |
| `Text.SplitJoin` | omaha-client/src/version.rs:44-58 | splitting what was joined gives the parts |
| `Text.HexRoundTrip` | omaha-client/src/cup_ecdsa.rs:128-132 | decoding encoded bytes gives them back |
| `Text.HexDecodesExactly` | omaha-client/src/cup_ecdsa.rs:272-283 | decoding succeeds iff there is an even number of hexadecimal digits in either case, and each two of them are a byte |
| `Text.SplitOnceCuts` | omaha-client/src/cup_ecdsa.rs:269-270 | text is cut at its first separator and nothing is lost |
| `Storage.TimeReadsBackToTheMicrosecond` | omaha-client/src/storage.rs:124-139 | a stored time reads back less than a microsecond away, or as none if it is too far from the epoch |
| `Storage.MemStorage.constructor` | omaha-client/src/storage/memory.rs:41-45 | new storage is empty and committed |
| `Storage.MemStorage.GetString` | omaha-client/src/storage/memory.rs:69-76 | a value of another type reads as none |
| `Storage.MemStorage.GetInt` | omaha-client/src/storage/memory.rs:78-85 | a value of another type reads as none |
| `Storage.MemStorage.GetTime` | omaha-client/src/storage.rs:126-131 | reads the stored microseconds as a time |
| `Storage.MemStorage.Set` | omaha-client/src/storage/memory.rs:97-119 | changes the cache only, and nothing if the write fails |
| `Storage.MemStorage.Remove` | omaha-client/src/storage/memory.rs:131-136 | changes the cache only, and nothing if it fails; a missing key is no fault |
| `Storage.MemStorage.Commit` | omaha-client/src/storage/memory.rs:138-141 | makes the cache durable, or changes nothing |
| `Storage.MemStorage.SetOptionInt` | omaha-client/src/storage.rs:113-122 | none removes the key |
| `Storage.MemStorage.SetTime` | omaha-client/src/storage.rs:133-139 | a time that has no stored form removes the key |
| `CheckContext.ContextReloads` | omaha-client/src/state_machine/update_check.rs:42-121 | writing a context and loading it gives back failure count and poll interval, and the last update time cut to the microsecond |
| `CheckContext.LastUpdateTimeReloads` | omaha-client/src/time.rs:203-208 | a wall time or the wall part of a complex one comes back to the microsecond and no further from the epoch, unless it is 2^63 microseconds or more away; a monotonic time is not stored |
| `CheckContext.LoadReads` | omaha-client/src/state_machine/update_check.rs:42-73 | what each of the three stored numbers amounts to, which values count as absent, and what a loaded context has besides |
| `CheckContext.ContextReloadsOnce` | omaha-client/src/state_machine/update_check.rs:42-121 | doing so again changes neither context nor storage |
| `CheckContext.PersistContextWrites` | omaha-client/src/state_machine/update_check.rs:75-121 | exactly three keys are written, and default values are removed instead |
| `CheckContext.PersistContextForeign` | omaha-client/src/state_machine/update_check.rs:75-121 | whichever writes fail, other keys and what is durable stay as they are |
| `CheckContext.Load` | omaha-client/src/state_machine/update_check.rs:42-73 | negative, oversized or mistyped stored values count as absent |
| `CheckContext.Persist` | omaha-client/src/state_machine/update_check.rs:75-121 | each value is tried whatever became of those before |
| `AppSet.AppsReload` | omaha-client/src/common.rs:100-140 | loading apps that were written restores, field by field, what the presets leave open and nothing else |
| `AppSet.LoadFillsIn` | omaha-client/src/common.rs:100-126 | a field of the cohort or the user counting that is preset stays, one that is not is taken from storage, and all else stays as given; if nothing readable is stored, everything does |
| `AppSet.FirstAnswerCounts` | omaha-client/src/protocol.rs:54-67 | the first response with the id of an app replaces exactly the cohort fields that it has, and the user counting |
| `AppSet.PersistAppsFrame` | omaha-client/src/app_set.rs:53-62 | writing apps touches no key but their ids, and nothing durable |
| `AppSet.VecAppSet.UpdateFromOmaha` | omaha-client/src/app_set.rs:28-37 | each app takes the first response with its id, and keeps everything if there is none |
| `AppSet.VecAppSet.Load` | omaha-client/src/app_set.rs:41-48 | the loop over the apps loads each by its own id |
| `AppSet.VecAppSet.Persist` | omaha-client/src/app_set.rs:53-62 | the loop over the apps writes each in turn, whatever fails |
| `AppSet.VecAppSet.constructor` | omaha-client/src/app_set.rs:72-78 | an app set holds the apps given, at least one |
| `StateMachine.StateMachine.constructor` | omaha-client/src/state_machine/builder.rs:276-310 | building from just opened storage is the restart step of the histories |
| `StateMachine.StateMachine.Run` | omaha-client/src/state_machine.rs:297-430 | the loop does to state, storage and record what the functions of a run say, so the theorems on runs are about it |
| `StateMachine.StateMachine.RunCycle` | omaha-client/src/state_machine.rs:326-429 | one turn of the loop does what the function of a turn says |
| `StateMachine.StateMachine.TryReportWait` | omaha-client/src/state_machine.rs:312-348 | the wait is reported once, and its keys are removed and committed then |
| `StateMachine.StateMachine.AwaitCheck` | omaha-client/src/state_machine.rs:350-396 | the wait for the next check ends with one decision and, if asked, one reply |
| `StateMachine.StateMachine.CheckWhileServing` | omaha-client/src/state_machine.rs:398-421 | serving requests during a check adds their replies and changes nothing of the check |
| `StateMachine.StateMachine.CheckAndReboot` | omaha-client/src/state_machine.rs:398-428 | the wait for a reboot follows exactly a check that asks for one |
| `StateMachine.StateMachine.WaitForReboot` | omaha-client/src/state_machine.rs:432-489 | the loop over rounds stops at the first that allows the reboot |
| `StateMachine.StateMachine.RebootRound` | omaha-client/src/state_machine.rs:448-483 | each of the three triggers is served as in the runs the theorems are about, and only two of them can allow the reboot |
| `StateMachine.StateMachine.UpdateNextUpdateTime` | omaha-client/src/state_machine.rs:258-295 | the policy's time is taken over, announced and waited for |
| `StateMachine.StateMachine.StartUpdateCheck` | omaha-client/src/state_machine.rs:595-669 | result, counters, cohorts, announcements and writing in the order of the model |
| `StateMachine.StateMachine.PerformUpdateCheck` | omaha-client/src/state_machine.rs:714-1154 | the check in place does what its function of the inputs says |
| `StateMachine.StateMachine.AskOmaha` | omaha-client/src/state_machine.rs:734-825 | the request loop in place makes the attempts of its function |
| `StateMachine.StateMachine.HandleResponse` | omaha-client/src/state_machine.rs:850-963 | one of five ways, by updates, plan and policy |
| `StateMachine.StateMachine.InstallUpdate` | omaha-client/src/state_machine.rs:965-1152 | the stages of an installation in order |
| `StateMachine.StateMachine.WalkResults` | omaha-client/src/state_machine.rs:1081-1106 | the walk that removes results from the front pairs them as its function does and collects the errors in order |
| `StateMachine.StateMachine.FinishInstall` | omaha-client/src/state_machine.rs:1108-1152 | errors end the installation, otherwise finish time and target version are written and the policy is asked |
| `StateMachine.StateMachine.InstallsBuilder` | omaha-client/src/state_machine.rs:1018-1057 | the loop over updates and results builds the request, the events and the installed apps |
| `StateMachine.StateMachine.RecordFirstSeen` | omaha-client/src/state_machine.rs:1390-1414 | the stored pair is reused, replaced, or taken back |
| `StateMachine.StateMachine.DoRequest` | omaha-client/src/state_machine.rs:1252-1309 | verification comes before the header, the header before the status |
| `StateMachine.StateMachine.ReportEvent` | omaha-client/src/state_machine.rs:1159-1188 | a failed report counts one lost event |
| `StateMachine.StateMachine.PingOmaha` | omaha-client/src/state_machine.rs:1191-1238 | a ping counts and writes like a check, without an install |
| `StateMachine.StateMachine.PersistData` | omaha-client/src/state_machine.rs:704-710 | context, then apps, then a commit |
| `StateMachine.StateMachine.ReportCheckAttempts` | omaha-client/src/state_machine.rs:673-681 | a success reports and resets the counter, a failure counts |
| `StateMachine.StateMachine.ReportInstallAttempts` | omaha-client/src/state_machine.rs:685-701 | the stored counter plus one is reported, and then removed or stored |

## Left out

- The HTTP client, executors, timers, the policy and the installer: they are inputs. An installer gives one result for each app of the response that has an update, as its contract says (omaha-client/src/installer.rs:44-45).
- SHA-256, ECDSA, DER, PEM and random bytes: abstract, with the assumption that a signature verifies with its own public key and survives DER (`Cup.Crypto.Correct`).
- serde JSON: for app data an abstract codec whose reading undoes its writing; for responses only what the client looks at.
- The URI library: which characters it takes and how it parses and prints a whole URI are parameters, with the assumption `Cup.UriLibrary.Faithful`: a URL whose path and query were replaced is refused when its text is parsed again, or comes back the same. Fragments are not modelled. The form decoding of the mock server's URL library is a parameter that leaves plain text alone.
- Wakers, pinning and the futures library: a fused task is pending after it returned, and the channel has one slot and keeps its order.
- A failed write or commit leaves storage unchanged, and whether it fails depends on the call and the key.
- Cached values reaching the disk before a commit: a restart finds exactly what was committed last, and nothing newer.
- StateMachine.StateMachine.CheckWhileServing: the method serves the requests after the check and weaves their acts into the record, in every order that keeps both; that is all of their effect, as nothing in a check reads the options they upgrade.
- RequestBuilder.RequestBuilder.Build: does not decorate the request; decoration is proved in `Cup`, and its failures are among the replies of `UpdateFlow`.
- Histories.CountersAreExact: lives end with their inputs or right after a commit; `Histories.SurvivingRecordIsExact` has lives that lose their power anywhere.
- Histories.BooksAreExact: likewise.
- Histories.RecordsKeepTheirPromises: likewise.
- Cohorts.EveryLifeCarriesItsCohorts: the apps given to each start leave open all that storage can fill in; a field that is given wins over what was stored, as `AppSet.AppsReload` says.
- Apps and cohorts are values, not shared objects behind a lock; the app set is read and written at the points where the original takes its lock.
- Panics on arithmetic overflow in debug builds: counters wrap as in release builds.
- The range of `SystemTime` and `Instant`: times are unbounded.
- The wait until the next check and the wait before a recheck end when the inputs say so; nothing is said about how long they take.
- The CUP decoration of a request is proved in `Cup` and is not visible in the requests of the state machine's record; there a response is valid or not.
- Addition and subtraction on times, `complete_with` and the other accessors of partial times, `get_bool`, channel getters and setters, validation of cohort names, key serialization, configuration and the builder's setters: easy members only.
- Logging and the display of values.
