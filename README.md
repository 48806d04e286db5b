# Health-check orchestration, modelled in Dafny

This project models the orchestration core of `async_health_check`, a Django
health-check library:

- **The probe contract (`BaseService`).** A service records domain errors
  (`HealthCheckException` and its subclasses) through `add_error`.
  `run_check` wraps the probe-specific `_run_check`: it records a raised domain
  error, swallows any other exception, and always sets `time_taken`.
- **The service factory.** A fixed table maps a service code to a probe class.
  `get_service` builds a service from keyword options or raises.
- **The engine (`HealthCheckEngine`).** It is a singleton whose fields
  `__init__` resets on every construction. It holds the settings and an
  ordered list of services, appends one service per `SERVICES` entry, runs
  every service's check once, and maps the services to one report record
  each.
- **The Celery ping probe.** It maps ping exceptions to messages, validates
  each worker's response, and reports every configured task queue that no
  active worker consumes.

Modules follow the source files:

| module | file | models |
|---|---|---|
| `Wrappers` | wrappers.dfy | `Option`, `Result` |
| `Values` | values.dfy | configuration values passed as options |
| `Exceptions` | exceptions.dfy | domain errors (kind and message) and the Python errors of loading |
| `BaseService` | base_service.dfy | `BaseService`: class `Service`, `add_error`, `run_check` |
| `ServiceFactory` | service_factory.dfy | `SERVICE_MAP`, `get_service` |
| `Engine` | engine.dfy | `HealthCheckEngine`, and class `EngineClass` for its `_instance` |
| `HealthCheckManager` | health_check_manager.dfy | `run_health_checks` |
| `CeleryPing` | celery_ping_service.dfy | `AsyncCeleryPingHealthCheck` |

How the model works:

- **Probes.** A probe's own `_run_check` talks to storages, caches, databases
  or Celery, so the model does not run it. A `ProbeRun` value says what it did:
  the values it passed to `add_error`, in order, and whether it returned,
  raised a domain error or raised something else.
- **The timer.** The two `timer()` readings are inputs, and
  `time_taken == end - start` is proved on every path.
- **`run_checks`.** The order in which the event loop runs the services is an
  input `schedule`, a permutation of the indices. Because `run_check` never
  raises, each service's final state is proved to depend on its own run alone,
  whatever the order.
- **The Celery probe.** These are the probe's inputs:
  - what `control.ping` does for the configured timeout;
  - the names in `CELERY_QUEUES`;
  - what `inspect(workers).active_queues()` replies for a list of workers.

  The set iteration of the last loop is a nondeterministic choice (`:|`). Its
  contract is order-free: one error per missing queue, and no others.
- **Reports.** `str(error)` of a domain error is modelled as its message.

The probe list is never reset after construction:
- `load_settings` only assigns `settings` (engine.py:20-22);
- `load_services` appends to `services` without clearing it (engine.py:24-28);
- only `__init__` sets `services` to `[]` (engine.py:11-13).

`LoadServices` therefore promises that the old list is kept as a prefix. The
list is emptied only when `HealthCheckEngine()` is called again
(`EngineClass.New`), because that call runs `__init__` on the cached instance.

## Model

| member | source | states |
|---|---|---|
| BaseService.Service.constructor | src/async_health_check/services/base_service.py:14-17 | a new service has no errors, `time_taken` 0 and the given `critical_service` |
| BaseService.Normalize | src/async_health_check/services/base_service.py:35-42 | a `HealthCheckException` is kept as it is; a string becomes a `HealthCheckException` with exactly that message; anything else gets "unknown error" |
| BaseService.NormalizeIdempotent | src/async_health_check/services/base_service.py:35-36 | a recorded error passed back to `add_error` is recorded unchanged |
| BaseService.NormalizeAll | src/async_health_check/services/base_service.py:34-47 | values passed to `add_error` in turn record one error each, in order, each normalized as `add_error` does |
| BaseService.Service.AddError | src/async_health_check/services/base_service.py:34-47 | `errors` becomes the old list plus exactly one normalized error at the end; `time_taken` is unchanged |
| BaseService.Recorded | src/async_health_check/services/base_service.py:21-26 | the errors of a run: those added during `_run_check`, in order, then the raised domain error if there was one |
| BaseService.DomainErrorRecordedLast | src/async_health_check/services/base_service.py:21-24 | a raised `HealthCheckException` is recorded last, after the errors added before the raise |
| BaseService.OtherExceptionRecordsNothing | src/async_health_check/services/base_service.py:25-26 | any other exception adds no error; earlier errors stay as they were |
| BaseService.DefaultProbeRecordsNothing | src/async_health_check/services/base_service.py:31-32 | a service using the default `_run_check` (`NotImplementedError`) ends with no errors |
| BaseService.Service.Conclude | src/async_health_check/services/base_service.py:23-28 | the `except` and `finally` clauses: a domain error is appended, and `time_taken == end - start`, which is non-negative for a monotone timer |
| BaseService.Service.RunCheck | src/async_health_check/services/base_service.py:19-29 | `run_check` returns the service itself and never raises; `errors` becomes the old list plus `Recorded(run)`; `time_taken == end - start` |
| BaseService.ServiceCode | src/async_health_check/services/base_service.py:11 | the `SERVICE_CODE` of each class: "" for the base class, and the code declared in each probe's own file (for example disk_usage_service.py:9) |
| BaseService.ServiceName | src/async_health_check/services/base_service.py:12 | the `SERVICE_NAME` of each class, which the report shows: "" for the base class, and the name declared in each probe's own file (for example disk_usage_service.py:10) |
| ServiceFactory.Parameter | src/async_health_check/services/disk_usage_service.py:12 | the class's own keyword parameter besides `critical_service`: `disk_usage_max`, `memory_min` (memory_usage_service.py:12), `databases` (database_usage_service.py:11), `caches` (cache_service.py:13) |
| ServiceFactory.ServiceMapKeys | src/async_health_check/services/service_factory.py:10-15 | the map has exactly the keys DISK_USAGE, MEMORY_USAGE, DATABASE_USAGE and CACHE; it has no CELERY, STORAGE or MIGRATION |
| ServiceFactory.Lookup | src/async_health_check/services/service_factory.py:19-21 | a name is found exactly when it is in the map, and then as the class whose `SERVICE_CODE` is that name; a missing name gives `ValueError("Service <name> not found")` |
| ServiceFactory.LookupByCode | src/async_health_check/services/service_factory.py:10-15 | every class in the map is found under its own `SERVICE_CODE` |
| ServiceFactory.Construct | src/async_health_check/services/service_factory.py:22 | `Class(**options)` succeeds exactly when the keys are among `critical_service` and the class's own parameter, and that parameter is present; an unexpected keyword is reported ahead of a missing one; `critical_service` defaults to `True` |
| ServiceFactory.Build | src/async_health_check/services/service_factory.py:18-22 | `get_service` is the lookup followed by construction; the lookup error and the constructor's error propagate unchanged |
| ServiceFactory.GetService | src/async_health_check/services/service_factory.py:17-22 | returns a fresh service with the configuration `Build` gives, no errors and no time taken, or the error `Build` gives; no existing state changes |
| Engine.BuildAll | src/async_health_check/engine.py:24-27 | at most one service is built per entry, and one per entry when nothing fails |
| Engine.BuildAllMeaning | src/async_health_check/engine.py:25-27 | entry `i` is built exactly as the factory builds it; the load stops at the first entry the factory rejects, with that entry's error |
| Engine.BuildAllSucceedsIff | src/async_health_check/engine.py:25-27 | loading succeeds if and only if the factory accepts every entry |
| Engine.LoadStop | src/async_health_check/engine.py:25-27 | a rejected entry ends the load with exactly the entries before it built |
| Engine.ResultOf | src/async_health_check/engine.py:44-48 | `STATUS` is FAILED iff the service has errors, SUCCESS otherwise; `ERRORS` holds the messages in order; name, `CRITICAL_SERVICE` and `TIME_TAKEN` are copied |
| Engine.FreshRunStatus | src/async_health_check/engine.py:45 | a freshly built service fails exactly when its probe added an error or raised a domain error; a probe that raised anything else reports success |
| Engine.LoadedAppend | src/async_health_check/engine.py:27 | appending a service that is not yet listed, built and not yet run, extends the loaded list by its configuration |
| Engine.HealthCheckEngine.constructor | src/async_health_check/engine.py:11-13 | `__init__` sets `settings` to `{}` and `services` to `[]` |
| Engine.HealthCheckEngine.Reset | src/async_health_check/engine.py:11-13 | `__init__` on the cached instance clears both fields again |
| Engine.EngineClass.constructor | src/async_health_check/engine.py:9 | `_instance` starts as `None` |
| Engine.EngineClass.New | src/async_health_check/engine.py:9-18 | `HealthCheckEngine()` creates the instance once and returns the same one afterwards; every call leaves `settings == {}` and `services == []` |
| Engine.HealthCheckEngine.LoadSettings | src/async_health_check/engine.py:20-22 | assigns the settings, returns the engine, and leaves `services` as it was |
| Engine.HealthCheckEngine.AppendService | src/async_health_check/engine.py:26-27 | one iteration: the factory's service for the entry is appended, or the factory's error is returned and nothing changes |
| Engine.HealthCheckEngine.AppendAll | src/async_health_check/engine.py:25-27 | the loop appends the services `BuildAll` builds, in configuration order, after the old list; all of them are new and unrun; it stops with the factory's error |
| Engine.HealthCheckEngine.LoadServices | src/async_health_check/engine.py:24-28 | no reset: the old list stays a prefix and one new service per entry follows it, in order; without `SERVICES` it raises `KeyError`; on a rejected entry it raises and the earlier services stay appended |
| Engine.HealthCheckEngine.RunChecks | src/async_health_check/engine.py:30-37 | returns the engine without raising; service `k` ends with its old errors plus `Recorded(runs[k])` and `time_taken` from its own readings, whatever the order of the schedule |
| Engine.HealthCheckEngine.RetrieveResults | src/async_health_check/engine.py:39-51 | one record per service, same length and order, record `i` being `ResultOf` service `i`; nothing changes |
| Engine.HealthCheckEngine.RetrieveResultsTwice | src/async_health_check/engine.py:39-51 | retrieving twice gives identical reports |
| Exceptions.Messages | src/async_health_check/engine.py:47 | `[str(err) for err in errors]`: one message per error, in order |
| HealthCheckManager.RunHealthChecks | src/async_health_check/health_check_manager.py:4-5 | the chain raises `KeyError` without `SERVICES` and the factory's error on a rejected entry; otherwise it gives one record per entry, in order, each showing the fresh service after its own run |
| HealthCheckManager.RunAndReport | src/async_health_check/health_check_manager.py:5 | `run_checks().retrieve_results()` on freshly loaded services: record `i` is service `i` built as configured, with exactly its run's errors and time |
| CeleryPing.PingMessage | src/async_health_check/services/celery_ping_service.py:22-32 | the message each `except` clause records: "IOError", the `CELERY_RESULT_BACKEND` hint, or "Unknown error" |
| CeleryPing.IncorrectMessage | src/async_health_check/services/celery_ping_service.py:48 | `f"Celery worker {worker} response was incorrect"` |
| CeleryPing.QueueMessage | src/async_health_check/services/celery_ping_service.py:75 | `f"No worker for Celery task queue {queue}"` |
| CeleryPing.QueuesChecked | src/async_health_check/services/celery_ping_service.py:57-76 | the outcome of `check_active_queues` on each path: no defined queues, a `None` inspect reply, or one error per missing queue after the earlier errors |
| CeleryPing.PingResultChecked | src/async_health_check/services/celery_ping_service.py:39-55 | the outcome of `check_ping_result`: the worker errors, an `IndexError` at an item-less reply, and the queue check only when `self.errors` is empty |
| CeleryPing.PingProbed | src/async_health_check/services/celery_ping_service.py:18-37 | the outcome of `_run_check` for each ping outcome: one mapped error per exception, the "workers unavailable" error on a falsy result, otherwise `PingResultChecked` |
| CeleryPing.PingMessagesDistinct | src/async_health_check/services/celery_ping_service.py:22-32 | IOError, NotImplementedError and any other exception get three different messages |
| CeleryPing.QueueMessageInjective | src/async_health_check/services/celery_ping_service.py:75 | different queues are reported with different messages |
| CeleryPing.FirstEmpty | src/async_health_check/services/celery_ping_service.py:43-44 | the index of the first reply with no item, where `list(result.items())[0]` raises; every reply before it has an item |
| CeleryPing.Heads | src/async_health_check/services/celery_ping_service.py:44 | the loop reads one `(worker, response)` pair per reply |
| CeleryPing.HeadsAt | src/async_health_check/services/celery_ping_service.py:44 | pair `k` is the first item of reply `k` |
| CeleryPing.WrongErrors | src/async_health_check/services/celery_ping_service.py:45-51 | one `ServiceUnavailable` error naming each worker whose response is not `{"ok": "pong"}`, in ping-result order, defined independently of the loop |
| CeleryPing.CorrectWorkers | src/async_health_check/services/celery_ping_service.py:45-52 | the workers whose response is `{"ok": "pong"}`, in ping-result order, defined independently of the loop |
| CeleryPing.VerdictsExact | src/async_health_check/services/celery_ping_service.py:43-52 | the loop's verdict is exactly `WrongErrors` and `CorrectWorkers`: one error per wrongly answering worker and the correct workers, both in ping-result order |
| CeleryPing.WrongErrorsNameWrongWorkers | src/async_health_check/services/celery_ping_service.py:45-51 | an error names a worker in the filter if and only if that worker answered wrongly |
| CeleryPing.WorkerErrorNamesWrongWorker | src/async_health_check/services/celery_ping_service.py:45-51 | every error of the worker loop names a worker that answered wrongly |
| CeleryPing.Verdicts | src/async_health_check/services/celery_ping_service.py:43-52 | every worker either adds one error or becomes active; `VerdictsExact` gives the exact lists |
| CeleryPing.NoWorkerErrorIff | src/async_health_check/services/celery_ping_service.py:45-51 | worker validation adds no error exactly when every response equals `{"ok": "pong"}` |
| CeleryPing.WorkerErrorsUnavailable | src/async_health_check/services/celery_ping_service.py:46-50 | every worker error is a `ServiceUnavailable` |
| CeleryPing.CorrectWorkerActive | src/async_health_check/services/celery_ping_service.py:45-52 | every worker that answered `{"ok": "pong"}` is active |
| CeleryPing.ActiveWorkersAnsweredCorrectly | src/async_health_check/services/celery_ping_service.py:45-52 | only workers that answered `{"ok": "pong"}` are active |
| CeleryPing.CleanPingKeepsAllWorkers | src/async_health_check/services/celery_ping_service.py:43-52 | when all responses are correct, there are no errors and the active workers are all workers in ping-result order |
| CeleryPing.IncorrectWorkerReported | src/async_health_check/services/celery_ping_service.py:45-50 | each worker with a wrong response gets the error naming it |
| CeleryPing.Validated | src/async_health_check/services/celery_ping_service.py:41-52 | the worker loop's errors and active workers, up to the reply where it raises |
| CeleryPing.ValidateStep | src/async_health_check/services/celery_ping_service.py:43-52 | one iteration either appends the error naming the worker or appends the worker to the active list |
| CeleryPing.ValidatedAt | src/async_health_check/services/celery_ping_service.py:43-44 | the loop stops at the first item-less reply, or at the end |
| CeleryPing.ValidateWorkers | src/async_health_check/services/celery_ping_service.py:41-52 | the loop appends exactly the worker errors to `errors` and builds the active list in order; it reports the `IndexError` of an item-less reply |
| CeleryPing.IncorrectWorkerValidated | src/async_health_check/services/celery_ping_service.py:43-51 | when every reply has an item, a worker with a wrong response is named by an error of the loop |
| CeleryPing.NoQueueCheckAfterWorkerError | src/async_health_check/services/celery_ping_service.py:54-55 | once some worker answered wrongly, the queues are not inspected and only the worker errors are added |
| CeleryPing.MissingQueues | src/async_health_check/services/celery_ping_service.py:73 | a queue is missing exactly when it is defined and its name is not among the active queue names |
| CeleryPing.MissingErrorsAdd | src/async_health_check/services/celery_ping_service.py:73-76 | reporting one more queue adds exactly its error to the set of reported errors |
| CeleryPing.QueueErrorsAdd | src/async_health_check/services/celery_ping_service.py:73-76 | reporting a queue not yet reported keeps exactly one distinct error per reported queue |
| CeleryPing.QueueErrorsNameMissing | src/async_health_check/services/celery_ping_service.py:64-76 | the queue check adds exactly one error per defined queue that no active worker consumes, names no other queue, and adds only `ServiceUnavailable` |
| CeleryPing.CoveredQueuesAddNothing | src/async_health_check/services/celery_ping_service.py:73-76 | when every defined queue is consumed, nothing is added |
| CeleryPing.ActiveQueueNames | src/async_health_check/services/celery_ping_service.py:70-71 | the union over all workers of the `name` of every queue in the reply (`None` where absent) |
| CeleryPing.ReportMissing | src/async_health_check/services/celery_ping_service.py:73-76 | the earlier errors are kept and one error per missing queue follows, in some order |
| CeleryPing.CheckActiveQueues | src/async_health_check/services/celery_ping_service.py:57-76 | no defined queues adds nothing; a missing inspect reply raises `AttributeError` and adds nothing; otherwise one error per defined queue no active worker consumes |
| CeleryPing.CheckPingResult | src/async_health_check/services/celery_ping_service.py:39-55 | the worker errors are added in order; the queue check runs with the active workers only if the service then has no error at all |
| CeleryPing.ItemlessReplyAddsNothing | src/async_health_check/services/celery_ping_service.py:43-44 | a ping result whose first reply has no item raises before adding any error |
| CeleryPing.PingProbeOnlyAddsUnavailable | src/async_health_check/services/celery_ping_service.py:18-76 | the probe never raises a domain error, keeps the earlier errors and adds only `ServiceUnavailable` errors |
| CeleryPing.RunProbe | src/async_health_check/services/celery_ping_service.py:18-37 | a ping exception records exactly one error with its message; a falsy ping result records exactly "Celery workers unavailable" and runs no queue check; otherwise the ping result is checked |
| CeleryPing.RunCheck | src/async_health_check/services/celery_ping_service.py:18-37 | `run_check` of the ping probe returns the service with the probe's errors as it left them and `time_taken == end - start` |

## Left out

- asyncio and aiohttp are left out. `run_checks` is a sequential loop in an arbitrary given order. The `ClientSession` is never passed to the services, and `run_check` cannot raise, so `gather` only adds scheduling.
- Reading the clock is left out: `timer()` readings are inputs.
- Logging and `gettext_lazy` are left out. So is the `cause` argument of `add_error`, which only chooses between `logger.exception` and `logger.error`.
- Reading Django's `settings.HEALTH_CHECK` is left out: `LoadSettings` takes the configuration as its input. An entry without `NAME` or `OPTIONS` (a `KeyError` in the loop) is not modelled; each entry always has both.
- The `exceptions` module is not part of this model. `HealthCheckException` and its subclasses are a kind tag plus a message, and `str(error)` is the message.
- The bodies of the storage, cache, database, migration, disk, memory and Celery-task probes are left out. They are thin wrappers over foreign calls, and every probe's `_run_check` is an abstract `ProbeRun`. Their option values are stored without inspection. The random cache key of `CacheHealthCheck` is left out.
- `constants.py` is not part of this model, and two of its constants are assumed:
  - `SERVICE_MAP` is keyed by `ServiceCodes.DISK_USAGE` and its siblings (service_factory.py:11-14). The model writes the keys as the literal strings "DISK_USAGE", "MEMORY_USAGE", "DATABASE_USAGE" and "CACHE". This assumes each `ServiceCodes` constant equals its name, which is also each class's own `SERVICE_CODE`. `ServiceFactory.Lookup`'s `SERVICE_CODE` clause depends on that assumption.
  - `ServiceStatus.SUCCESS` and `ServiceStatus.FAILED` (engine.py:45) are modelled as the two values of the `Engine.Status` datatype; their actual values are not modelled.
- `ServiceFactory.Construct` does not model Python's type annotations: any value is accepted for any option.
- `CeleryPing` takes `control.ping` and `control.inspect` as inputs, as does the `CELERY_QUEUES` setting, given as its queue names. A `None` ping result and a `None` `CELERY_QUEUES` are written as empty lists, which Python treats the same. `app.control` raising inside `inspect` is left out; only a `None` reply, which raises at `.values()`, is modelled.
- The Celery probe's methods take the `Service` as a parameter. Subclassing `BaseService` is not modelled, and neither is the Celery probe's own `__init__` (the class is not in the factory's map).
- `BaseService.Service.RunCheck`, `CeleryPing.RunCheck` and `Engine.HealthCheckEngine.RunChecks` take a real-valued timer. Timer precision and floating point are not modelled.
