/**
 * The probe execution contract shared by every health check (`BaseService`).
 *
 * A probe's own check logic (`_run_check`) talks to storages, caches, databases
 * or Celery. The model does not run it: a `ProbeRun` says what it did instead,
 * namely which values it passed to `add_error` and how it ended. `RunCheck`
 * wraps such a run the way `run_check` wraps `_run_check`: a domain error is
 * recorded, any other exception is swallowed, and the elapsed time is set on
 * every path from two timer readings.
 */
module BaseService {
  import opened Values
  import opened Exceptions

  /** Which `BaseService` class a service is an instance of. */
  datatype ServiceKind =
    | Base
    | DiskUsage
    | MemoryUsage
    | DatabaseUsage
    | Cache
    | CeleryPing

  /** The class attribute `SERVICE_CODE`. */
  function ServiceCode(kind: ServiceKind): string
  {
    match kind
    case Base => ""
    case DiskUsage => "DISK_USAGE"
    case MemoryUsage => "MEMORY_USAGE"
    case DatabaseUsage => "DATABASE_USAGE"
    case Cache => "CACHE"
    case CeleryPing => "CELERY"
  }

  /** The class attribute `SERVICE_NAME`, which the report shows. */
  function ServiceName(kind: ServiceKind): string
  {
    match kind
    case Base => ""
    case DiskUsage => "Disk Usage"
    case MemoryUsage => "Memory Usage"
    case DatabaseUsage => "Database Usage"
    case Cache => "Cache"
    case CeleryPing => "Async Celery Health Check"
  }

  /** The first argument of `add_error`: a domain error, a string, or anything else. */
  datatype ErrorValue =
    | Raised(error: HealthCheckError)
    | Text(text: string)
    | Unrecognized

  const UnknownErrorMessage: string := "unknown error"

  /** How `add_error` turns its argument into the domain error it records. */
  function Normalize(v: ErrorValue): (e: HealthCheckError)
    ensures v.Raised? ==> e == v.error
    ensures v.Text? ==> e.message == v.text && e.kind == HealthCheckException
    ensures v.Unrecognized? ==> e.message == UnknownErrorMessage && e.kind == HealthCheckException
  {
    match v
    case Raised(error) => error
    case Text(text) => HealthCheckError(HealthCheckException, text)
    case Unrecognized => HealthCheckError(HealthCheckException, UnknownErrorMessage)
  }

  /** The errors recorded by passing `vs` to `add_error` one after another. */
  function NormalizeAll(vs: seq<ErrorValue>): (es: seq<HealthCheckError>)
    ensures |es| == |vs|
    ensures forall i :: 0 <= i < |vs| ==> es[i] == Normalize(vs[i])
  {
    if vs == [] then [] else [Normalize(vs[0])] + NormalizeAll(vs[1..])
  }

  /** Normalizing is idempotent: a recorded error passed back to `add_error` is kept as it is. */
  lemma NormalizeIdempotent(v: ErrorValue)
    ensures Normalize(Raised(Normalize(v))) == Normalize(v)
  {
  }

  /** How a probe's `_run_check` ended. */
  datatype Ending =
    | Returned
    | RaisedDomain(error: HealthCheckError)
    | RaisedOther

  /** One execution of `_run_check`: the values it passed to `add_error`, in order, then its ending. */
  datatype ProbeRun = ProbeRun(reported: seq<ErrorValue>, ending: Ending)

  /** The default `_run_check` raises `NotImplementedError` and records nothing. */
  const DefaultProbe: ProbeRun := ProbeRun([], RaisedOther)

  /** The errors a run leaves behind once `run_check` has handled its ending. */
  function Recorded(run: ProbeRun): (es: seq<HealthCheckError>)
    ensures |es| == |run.reported| + (if run.ending.RaisedDomain? then 1 else 0)
    ensures es[..|run.reported|] == NormalizeAll(run.reported)
    ensures run.ending.RaisedDomain? ==> es[|es| - 1] == run.ending.error
  {
    NormalizeAll(run.reported) + (if run.ending.RaisedDomain? then [run.ending.error] else [])
  }

  /** A domain error raised by `_run_check` is recorded last, after everything it added before raising. */
  lemma DomainErrorRecordedLast(run: ProbeRun)
    requires run.ending.RaisedDomain?
    ensures Recorded(run) == NormalizeAll(run.reported) + [run.ending.error]
  {
  }

  /** Any other exception adds nothing: only the errors added before the raise remain. */
  lemma OtherExceptionRecordsNothing(run: ProbeRun)
    requires !run.ending.RaisedDomain?
    ensures Recorded(run) == NormalizeAll(run.reported)
  {
  }

  /** A service relying on the default `_run_check` records no error at all. */
  lemma DefaultProbeRecordsNothing()
    ensures Recorded(DefaultProbe) == []
  {
  }

  /** What a service was built with: its class, `critical_service` and its one option. */
  datatype ServiceConfig = ServiceConfig(kind: ServiceKind, critical: Value, argument: Value)

  /** The observable state of a service, as the report reads it. */
  datatype ServiceState = ServiceState(kind: ServiceKind, critical: Value, errors: seq<HealthCheckError>, timeTaken: real)

  /** A health-check service: a `BaseService` instance. */
  class Service {
    const kind: ServiceKind
    const critical: Value
    const argument: Value
    var errors: seq<HealthCheckError>
    var timeTaken: real

    /** `BaseService.__init__`: no errors yet and no time taken. */
    constructor (kind: ServiceKind, critical: Value, argument: Value)
      ensures this.kind == kind && this.critical == critical && this.argument == argument
      ensures errors == [] && timeTaken == 0.0
    {
      this.kind := kind;
      this.critical := critical;
      this.argument := argument;
      errors := [];
      timeTaken := 0.0;
    }

    function Config(): ServiceConfig
    {
      ServiceConfig(kind, critical, argument)
    }

    function State(): ServiceState
      reads this
    {
      ServiceState(kind, critical, errors, timeTaken)
    }

    /** `add_error`: appends exactly one normalized error and changes nothing else. */
    method AddError(v: ErrorValue)
      modifies this
      ensures errors == old(errors) + [Normalize(v)]
      ensures timeTaken == old(timeTaken)
    {
      errors := errors + [Normalize(v)];
    }

    /**
     * The `except` and `finally` clauses of `run_check`, applied to how
     * `_run_check` ended between the timer readings `start` and `end`.
     */
    method Conclude(ending: Ending, start: real, end: real)
      modifies this
      ensures errors == old(errors) + (if ending.RaisedDomain? then [ending.error] else [])
      ensures timeTaken == end - start
      ensures start <= end ==> timeTaken >= 0.0
    {
      if ending.RaisedDomain? {
        AddError(Raised(ending.error));
      }
      timeTaken := end - start;
    }

    /**
     * `run_check` around a `_run_check` that behaves as `run`: never raises,
     * returns the service, records the run's errors and always sets the time.
     */
    method RunCheck(run: ProbeRun, start: real, end: real) returns (self: Service)
      modifies this
      ensures self == this
      ensures errors == old(errors) + Recorded(run)
      ensures timeTaken == end - start
      ensures start <= end ==> timeTaken >= 0.0
    {
      var i := 0;
      while i < |run.reported|
        invariant 0 <= i <= |run.reported|
        invariant errors == old(errors) + NormalizeAll(run.reported[..i])
      {
        AddError(run.reported[i]);
        assert run.reported[..i + 1] == run.reported[..i] + [run.reported[i]];
        NormalizeAllAppend(run.reported[..i], run.reported[i]);
        i := i + 1;
      }
      assert run.reported[..i] == run.reported;
      Conclude(run.ending, start, end);
      self := this;
    }
  }

  lemma NormalizeAllAppend(vs: seq<ErrorValue>, v: ErrorValue)
    ensures NormalizeAll(vs + [v]) == NormalizeAll(vs) + [Normalize(v)]
  {
    var lhs, rhs := NormalizeAll(vs + [v]), NormalizeAll(vs) + [Normalize(v)];
    assert |lhs| == |rhs|;
    forall i | 0 <= i < |lhs| ensures lhs[i] == rhs[i] {
      assert (vs + [v])[i] == if i < |vs| then vs[i] else v;
    }
  }
}
