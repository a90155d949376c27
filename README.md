# Oozie coordinator core, modelled in Dafny

This project models the core of Oozie's coordinator as five parts:

- **Readiness scheduler** (`ActionReady`, `action_ready.dfy`): `XCoordActionReadyCommand.execute`.
  - It works out how many READY actions of a coordinator job may start. This depends on the job's concurrency and on how many actions are running or submitted; negative concurrency means unlimited.
  - It fetches that many READY actions.
  - For each action in the returned list, in order: it queues a start command (delay 100) and then persists the action as SUBMITTED.
- **Status reconciler** (`ActionUpdate`, `action_update.dfy`): `XCoordActionUpdateCommand.execute`.
  - It finds the coordinator action that started a workflow.
  - It maps the workflow's status to the action's status and to an SLA status, and persists the action with a new last-modified time.
  - On a terminal status it also writes an SLA event and queues the readiness command for the action's job.
- **SLA sequence cursor** (`SlaEvents`, `sla_events.dfy`): `SLAEventsGetForSeqIdCommand`.
  - It reads one page of SLA events newer than a sequence id.
  - It moves the caller's one-cell array `lastSeqId` to the largest event id seen.
- **Job-info query** (`CoordJobInfo`, `coord_job_info.dfy`): `CoordJobXCommand`.
  - Three constructors check the job id and set the default action window (1, `Integer.MAX_VALUE`).
  - The command needs no lock and uses the job id as its entity key.
  - It loads the job and, when asked, attaches a window of its actions.
- **Jobs servlet parameters** (`JobsServlet`, `jobs_servlet.dfy`): three checks in `V0JobsServlet`.
  - The `action` check of `submitJob`.
  - The `offset`/`len` defaults of `getJobs`.
  - Reporting engine failures as BAD_REQUEST.

Two modules serve them all:

- `Oozie` (`oozie.dfy`) holds the shared beans, statuses and errors.
- `Runtime` (`runtime.dfy`) holds what the commands see of the server:
  - the JPA service, whose answers are the functions of a `JpaService` value;
  - the command queue;
  - the SLA event store.

The calls a command makes are appended, in order, to one log, `Services.effects`. The log records store commands executed, calls to `queue` (with their delay) and SLA events written. `Only(effects, kind)` selects the entries of one kind.

The commands that change state are methods:

- `XCoordActionReadyCommand.Execute` and its loop `StartReadyActions`;
- `XCoordActionUpdateCommand.Execute`, which also assigns the command's `caction` field;
- `SLAEventsGetForSeqIdCommand.Execute`, which writes the array cell in a loop;
- `CoordJobXCommand.Execute`.

Each method is proved equal to a reference function: `ReadyRun`/`Dispatch`, `UpdateRun`, `Page`/`MaxEventId` and `Loaded`. The lemmas state what the source promises about those functions.

The model follows the code where the design intent reads otherwise:

- The readiness command calls `queue` for the start command *before* it writes the SUBMITTED record (`StartQueuedBeforeUpdate`). When that write is refused, the `queue` call for that action has already been made.
- The status reconciler reads only the workflow's status, never the action's prior status. A repeated terminal callback therefore persists the action and writes its SLA event again (`RepeatedCallbackWritesSlaAgain`); it is not written just once.
- Both locked commands report no entity key (`ActionReady.ReadyLockWithoutKey`, `ActionUpdate.UpdateLockWithoutKey`).

## Model

| member | source | states |
|---|---|---|
| ActionReady.FreeSlots | core/src/main/java/org/apache/oozie/command/coord/XCoordActionReadyCommand.java:76-81 | With concurrency c ≥ 0 and r running or submitted, the free slots are max(0, c − r): never above c, zero exactly when r ≥ c, otherwise they make up c together with r |
| ActionReady.MarkedCount | core/src/main/java/org/apache/oozie/command/coord/XCoordActionReadyCommand.java:100-117 | The loop marks min(limit, list length) actions, or the whole list when the limit is negative (start all) |
| ActionReady.FirstRejected | core/src/main/java/org/apache/oozie/command/coord/XCoordActionReadyCommand.java:107-110 | Locates the first action whose SUBMITTED record the store refuses: all before it are accepted, it is refused |
| ActionReady.StartSteps | core/src/main/java/org/apache/oozie/command/coord/XCoordActionReadyCommand.java:105-110 | Marking n actions produces exactly two effects per action |
| ActionReady.XCoordActionReadyCommand.Execute | core/src/main/java/org/apache/oozie/command/coord/XCoordActionReadyCommand.java:47-119 | The outcome and the effects appended to the log are those of `ReadyRun` for the job and store: job lookup, count (only for concurrency ≥ 0), stop on no free slot, fetch with the limit, then the marking loop |
| ActionReady.ReadyRun | core/src/main/java/org/apache/oozie/command/coord/XCoordActionReadyCommand.java:47-119 | Every run begins with the job lookup. A failure is always a CommandException. When the lookup fails, that lookup is all the run does |
| ActionReady.Dispatch | core/src/main/java/org/apache/oozie/command/coord/XCoordActionReadyCommand.java:100-117 | The marking loop fails only with a CommandException, and makes at most two calls per action it may mark (min(limit, list length), or the whole list when unlimited) |
| ActionReady.ReadyLockWithoutKey | core/src/main/java/org/apache/oozie/command/coord/XCoordActionReadyCommand.java:121-129 | The readiness command requires a lock but reports no entity key |
| ActionReady.StartReadyActions | core/src/main/java/org/apache/oozie/command/coord/XCoordActionReadyCommand.java:100-117 | The counter-bounded loop with `break` appends exactly the effects of `Dispatch`, and fails with the store's code at the first refused record |
| ActionReady.StartStepsAt | core/src/main/java/org/apache/oozie/command/coord/XCoordActionReadyCommand.java:107-110 | For the i-th marked action, effect 2i is its start command (its id, user, auth token, delay 100) and effect 2i+1 its SUBMITTED record |
| ActionReady.StartStepKinds | core/src/main/java/org/apache/oozie/command/coord/XCoordActionReadyCommand.java:105-110 | Marking one action queues one start command and writes one action record, and nothing else |
| ActionReady.StartStepsWriteNoJobNorSla | core/src/main/java/org/apache/oozie/command/coord/XCoordActionReadyCommand.java:100-117 | The marking loop runs no query, writes no job and writes no SLA event |
| ActionReady.StartStepsPersist | core/src/main/java/org/apache/oozie/command/coord/XCoordActionReadyCommand.java:107-110 | The loop writes exactly one record per marked action, in list order: the action with only its status set to SUBMITTED |
| ActionReady.StartStepsQueue | core/src/main/java/org/apache/oozie/command/coord/XCoordActionReadyCommand.java:96-110 | The loop queues exactly one start command per marked action, in list order, carrying the action id, the job's user and auth token, and delay 100 |
| ActionReady.FetchEffects | core/src/main/java/org/apache/oozie/command/coord/XCoordActionReadyCommand.java:94-117 | Fetching and marking adds exactly one READY-actions query and writes neither the job nor an SLA event |
| ActionReady.UnlimitedConcurrencySkipsCount | core/src/main/java/org/apache/oozie/command/coord/XCoordActionReadyCommand.java:66-94 | With negative concurrency the running count is never queried, and READY actions are fetched with limit −1 |
| ActionReady.FreeSlotsLimitTheFetch | core/src/main/java/org/apache/oozie/command/coord/XCoordActionReadyCommand.java:70-94 | With concurrency c ≥ 0 and r < c running, the queries are job, count, and READY actions with limit c − r, in that order |
| ActionReady.NoFreeSlotIsNoop | core/src/main/java/org/apache/oozie/command/coord/XCoordActionReadyCommand.java:76-88 | With no free slot the command succeeds after the job lookup and the count: no fetch, no write, nothing queued |
| ActionReady.ReadyNeverWritesJob | core/src/main/java/org/apache/oozie/command/coord/XCoordActionReadyCommand.java:56-118 | Whatever the store answers, the job record is never written and no SLA event is written |
| ActionReady.FetchedWith | core/src/main/java/org/apache/oozie/command/coord/XCoordActionReadyCommand.java:56-94 | A run that fetched READY actions with some limit is the job lookup (plus the count when limited), that fetch, and the marking loop with that limit |
| ActionReady.ReadyMarksPrefix | core/src/main/java/org/apache/oozie/command/coord/XCoordActionReadyCommand.java:100-117 | The actions marked are a prefix of the returned list, in its order. Its length is min(limit, list length), or the whole list when unlimited, cut just after a refused record. Each marked action is persisted once as SUBMITTED and gets one start command. The run succeeds iff no record is refused |
| ActionReady.FetchMarksPrefix | core/src/main/java/org/apache/oozie/command/coord/XCoordActionReadyCommand.java:94-117 | The same prefix property for the fetch-and-mark step after any job lookup |
| ActionReady.AfterQueries | core/src/main/java/org/apache/oozie/command/coord/XCoordActionReadyCommand.java:100-117 | After queries that neither write nor queue, the loop's writes and queued commands are exactly one per marked action, in order |
| ActionReady.StartQueuedBeforeUpdate | core/src/main/java/org/apache/oozie/command/coord/XCoordActionReadyCommand.java:107-110 | When the store refuses an action's SUBMITTED record, the run fails. Its last two effects are that action's queued start command and then the refused write |
| ActionUpdate.ReactionTo | core/src/main/java/org/apache/oozie/command/coord/XCoordActionUpdateCommand.java:62-97 | RUNNING or SUSPENDED: only a refresh. SUCCEEDED, FAILED or KILLED: the same-named action status and SLA status. Any other status: unexpected, only a refresh |
| ActionUpdate.XCoordActionUpdateCommand.constructor | core/src/main/java/org/apache/oozie/command/coord/XCoordActionUpdateCommand.java:39-43 | Keeps the workflow; `caction` starts empty |
| ActionUpdate.XCoordActionUpdateCommand.Execute | core/src/main/java/org/apache/oozie/command/coord/XCoordActionUpdateCommand.java:46-117 | The outcome, the appended effects and the new `caction` field are those of `UpdateRun` for the prior field, workflow, store and clock reading |
| ActionUpdate.Reconciled | core/src/main/java/org/apache/oozie/command/coord/XCoordActionUpdateCommand.java:62-104 | The persisted action differs from the found one only in its status and last-modified time. The time is the clock reading; the status is the same-named one for a terminal workflow status and unchanged otherwise |
| ActionUpdate.UpdateRun | core/src/main/java/org/apache/oozie/command/coord/XCoordActionUpdateCommand.java:46-117 | One run makes one to four calls, the first being the lookup by workflow id. A failure is a CommandException. `caction` changes only after a successful lookup, and is then set exactly when an action was found, with the new time |
| ActionUpdate.UpdateLockWithoutKey | core/src/main/java/org/apache/oozie/command/coord/XCoordActionUpdateCommand.java:119-127 | The update command requires a lock but reports no entity key |
| ActionUpdate.NoActionNoUpdate | core/src/main/java/org/apache/oozie/command/coord/XCoordActionUpdateCommand.java:56-60 | With no action for the workflow's id, the command succeeds after the lookup: no update, no SLA event, nothing queued, `caction` null |
| ActionUpdate.FoundActionPersistedOnce | core/src/main/java/org/apache/oozie/command/coord/XCoordActionUpdateCommand.java:62-104 | Every run that finds the action writes exactly one action record: the action with the mapped status and the new time |
| ActionUpdate.NonTerminalOnlyRefreshes | core/src/main/java/org/apache/oozie/command/coord/XCoordActionUpdateCommand.java:62-97 | For a non-terminal workflow status the action keeps its status and only its last-modified time is refreshed and persisted. No SLA event is written and nothing is queued |
| ActionUpdate.TerminalPersistsThenSlaThenReady | core/src/main/java/org/apache/oozie/command/coord/XCoordActionUpdateCommand.java:72-109 | For a terminal status the run is, in order: the lookup; the action persisted with the same-named status; one COORDINATOR_ACTION SLA event for the action id with the same-named SLA status; one readiness command for the action's job |
| ActionUpdate.RepeatedCallbackWritesSlaAgain | core/src/main/java/org/apache/oozie/command/coord/XCoordActionUpdateCommand.java:72-109 | The same terminal callback, delivered again after the first run persisted its result, persists the same record and writes a second, identical SLA event |
| ActionUpdate.StoreErrorsRethrown | core/src/main/java/org/apache/oozie/command/coord/XCoordActionUpdateCommand.java:112-114 | A store failure becomes a CommandException with the store's code. A failed lookup writes nothing and keeps `caction`; a refused update writes no SLA event and queues nothing |
| SlaEvents.MaxEventId | core/src/main/java/org/apache/oozie/command/jpa/SLAEventsGetForSeqIdCommand.java:56-58 | The running maximum is ≥ the start value and ≥ every event id, and it is the start value or one of the event ids |
| SlaEvents.Page | core/src/main/java/org/apache/oozie/command/jpa/SLAEventsGetForSeqIdCommand.java:52-62 | The page holds at most `limitLen` events and is a prefix of the query's rows (all of them when shorter). A failed query or a negative limit gives E0603 |
| SlaEvents.SLAEventsGetForSeqIdCommand.constructor | core/src/main/java/org/apache/oozie/command/jpa/SLAEventsGetForSeqIdCommand.java:35-40 | Keeps seqId, limitLen and the array, and sets `lastSeqId[0]` to seqId; no other cell changes |
| SlaEvents.SLAEventsGetForSeqIdCommand.Execute | core/src/main/java/org/apache/oozie/command/jpa/SLAEventsGetForSeqIdCommand.java:49-64 | Returns `Page`. On success `lastSeqId[0]` becomes the maximum of its old value and every returned id; on failure it is unchanged. No other cell changes |
| SlaEvents.EmptyPageKeepsCursor | core/src/main/java/org/apache/oozie/command/jpa/SLAEventsGetForSeqIdCommand.java:56-58 | An empty page leaves the cursor where it was |
| SlaEvents.MaxEventIdIsLeastBound | core/src/main/java/org/apache/oozie/command/jpa/SLAEventsGetForSeqIdCommand.java:56-58 | The cursor is the least bound of the start value and the page's ids |
| SlaEvents.CursorCarriesAcrossPages | core/src/main/java/org/apache/oozie/command/jpa/SLAEventsGetForSeqIdCommand.java:56-58 | Reading two pages in turn leaves the cursor where one page holding both would |
| SlaEvents.CursorIgnoresOrder | core/src/main/java/org/apache/oozie/command/jpa/SLAEventsGetForSeqIdCommand.java:56-58 | The cursor does not depend on the order the query returns its rows in |
| CoordJobInfo.CoordJobXCommand.Execute | core/src/main/java/org/apache/oozie/command/coord/CoordJobXCommand.java:91-110 | The result and the store commands run are those of `Loaded` for the command and the (possibly absent) JPA service |
| CoordJobInfo.Loaded | core/src/main/java/org/apache/oozie/command/coord/CoordJobXCommand.java:91-110 | No job is returned exactly when there is no JPA service. At most two store commands run. A failure is a CommandException. A returned job is the stored job, except possibly its actions |
| CoordJobInfo.NotEmpty | core/src/main/java/org/apache/oozie/command/coord/CoordJobXCommand.java:56 | An id is accepted iff it is present and non-empty; otherwise the argument "id" is illegal |
| CoordJobInfo.WithRange | core/src/main/java/org/apache/oozie/command/coord/CoordJobXCommand.java:54-60 | The range constructor rejects a null or empty id. Otherwise it keeps the id, start and length, and always loads actions |
| CoordJobInfo.ForJob | core/src/main/java/org/apache/oozie/command/coord/CoordJobXCommand.java:45-47 | The one-argument constructor rejects a null or empty id. Otherwise it loads actions with start 1 and length `Integer.MAX_VALUE` |
| CoordJobInfo.WithActionInfo | core/src/main/java/org/apache/oozie/command/coord/CoordJobXCommand.java:66-70 | The boolean constructor rejects a null or empty id. Otherwise it keeps the flag and the default window 1 / `Integer.MAX_VALUE` |
| CoordJobInfo.NoServiceNoJob | core/src/main/java/org/apache/oozie/command/coord/CoordJobXCommand.java:93-105 | Without a JPA service the command returns no job and runs nothing |
| CoordJobInfo.ActionsAttachedOnlyWhenAsked | core/src/main/java/org/apache/oozie/command/coord/CoordJobXCommand.java:96-100 | The action subset for (id, start, len) is queried iff `getActionInfo` holds. It then replaces the job's actions; otherwise the job is returned as loaded |
| CoordJobInfo.StoreErrorsRethrown | core/src/main/java/org/apache/oozie/command/coord/CoordJobXCommand.java:107-109 | A failure of either store command becomes a CommandException with the store's code |
| CoordJobInfo.InfoOnlyReads | core/src/main/java/org/apache/oozie/command/coord/CoordJobXCommand.java:91-110 | The command writes no action and no job |
| CoordJobInfo.EveryConstructorChecksId | core/src/main/java/org/apache/oozie/command/coord/CoordJobXCommand.java:54-70 | All three constructors reject exactly the same ids |
| CoordJobInfo.ForJobLoadsAllActions | core/src/main/java/org/apache/oozie/command/coord/CoordJobXCommand.java:45-60 | The one-argument constructor builds the same command as the boolean one with `true` |
| CoordJobInfo.InfoLockFreeKeyedById | core/src/main/java/org/apache/oozie/command/coord/CoordJobXCommand.java:72-80 | The job-info command needs no lock and reports its job id as entity key |
| JobsServlet.AsBadRequest | core/src/main/java/org/apache/oozie/servlet/V0JobsServlet.java:64-66 | An engine error becomes an XServletException with status 400 and the engine's code |
| JobsServlet.Reported | core/src/main/java/org/apache/oozie/servlet/V0JobsServlet.java:114-116 | An engine answer passes through unchanged; an engine failure becomes BAD_REQUEST |
| JobsServlet.StartJob | core/src/main/java/org/apache/oozie/servlet/V0JobsServlet.java:54-58 | A present `action` other than "start" is rejected with 400/E0303. Otherwise the job is started exactly when `action` is present |
| JobsServlet.Offset | core/src/main/java/org/apache/oozie/servlet/V0JobsServlet.java:100-101 | The offset is at least 1. It is the given value when that is ≥ 1, otherwise 1 |
| JobsServlet.Len | core/src/main/java/org/apache/oozie/servlet/V0JobsServlet.java:102-103 | The length is at least 1. It is the given value when that is ≥ 1, otherwise 50 |
| JobsServlet.SubmitJob | core/src/main/java/org/apache/oozie/servlet/V0JobsServlet.java:49-69 | A bad `action` is refused. Otherwise the engine submits, and starts exactly when `action` is present; its failure is reported as BAD_REQUEST |
| JobsServlet.JobIdForExternalId | core/src/main/java/org/apache/oozie/servlet/V0JobsServlet.java:75-87 | Succeeds iff the engine does, returning the engine's job id; an engine failure is reported as BAD_REQUEST with its code |
| JobsServlet.GetJobs | core/src/main/java/org/apache/oozie/servlet/V0JobsServlet.java:94-119 | Succeeds iff the engine's `getJobs` for the filter and the normalised offset and length does, returning its page; its failure is reported as BAD_REQUEST with its code |
| JobsServlet.BadActionNeverSubmits | core/src/main/java/org/apache/oozie/servlet/V0JobsServlet.java:54-57 | A submit with a bad `action` is answered 400/E0303 whatever the engine would do |
| JobsServlet.GetJobsAsksInRange | core/src/main/java/org/apache/oozie/servlet/V0JobsServlet.java:97-116 | The engine is only asked for a page whose offset and length are at least 1, and its failures become BAD_REQUEST |
| JobsServlet.BelowOneIsAbsent | core/src/main/java/org/apache/oozie/servlet/V0JobsServlet.java:100-103 | An offset or length below 1 is treated as absent: the offset becomes 1, the length 50 (not 1) |
| JobsServlet.NormalisingIsIdempotent | core/src/main/java/org/apache/oozie/servlet/V0JobsServlet.java:100-103 | Normalising an already normalised offset or length changes nothing |

## Left out

- Logging, instrumentation and the E0610 "no JPA service" log lines are not modelled.
- The readiness and update commands dereference the JPA service, so a missing service is a `requires` on their `Execute`. The job-info command handles a missing service and is modelled with it.
- The readiness command dereferences the loaded job. A job the store cannot find is modelled as the store failing, not as a null bean.
- The store queries are not modelled; their answers are the inputs in `JpaService`. This covers the ready-actions query with its FIFO/LIFO/LAST_ONLY order and limit, the running count, the lookup by external id, the action subset, and updates. No ordering property is claimed.
- `SLADbOperations.writeStausEvent` is recorded as an effect; its own failures are not modelled.
- `Queued` records the call to `queue`. When `XCommand` passes queued commands on to the queue service, and whether it drops them after a failed `execute`, is not modelled.
- `XCommand`, the command executor, locking, the queue's execution and its delays are not part of this model. `queue(command)` without a delay is recorded with delay 0, and locking is modelled only as the `IsLockRequired`/`EntityKey` settings.
- `loadState` and `verifyPrecondition` are empty in all three commands and are not modelled.
- `new Date()` is the parameter `now` of `XCoordActionUpdateCommand.Execute`.
- SlaEvents.SLAEventsGetForSeqIdCommand.constructor: requires an array of length at least 1; the source would raise an index error on an empty array.
- SlaEvents.Page: the named query GET_SLA_EVENT_NEWER_SEQ_LIMITED is not part of this model. Its rows are an input, and `setMaxResults` is modelled as keeping the first `limitLen` rows. A negative limit, which `setMaxResults` refuses, is modelled as E0603 like any other failure. The field default `limitLen = 100` is always overwritten by the constructor, so it has no effect.
- Event ids are `long` in the source and unbounded integers here; a maximum cannot overflow.
- JobsServlet: request and response handling, JSON building, user and auth-token lookup, and `Integer.parseInt` failures are not modelled. Parameters arrive already parsed as `Option<int>`.
- RestConstants is not part of this model; `JOB_ACTION_START` is taken to be "start".
- Only the fields of the beans that the modelled code reads or writes are kept.
- Java object identity is not modelled. Action beans are values, and a bean changed in place is an updated copy.
