/**
 * The service factory: a fixed table from service code to service class, and
 * the construction of a service from its keyword options (`Class(**options)`).
 */
module ServiceFactory {
  import opened Wrappers
  import opened Values
  import opened Exceptions
  import opened BaseService

  /** `ServiceFactory.SERVICE_MAP`. */
  const ServiceMap: map<string, ServiceKind> := map[
    "DISK_USAGE" := DiskUsage,
    "MEMORY_USAGE" := MemoryUsage,
    "DATABASE_USAGE" := DatabaseUsage,
    "CACHE" := Cache
  ]

  /** The keyword every class accepts besides its own option. */
  const CriticalServiceParameter: string := "critical_service"

  /** The other keyword parameter of each class's `__init__`. */
  function Parameter(kind: ServiceKind): string
  {
    match kind
    case Base => ""
    case DiskUsage => "disk_usage_max"
    case MemoryUsage => "memory_min"
    case DatabaseUsage => "databases"
    case Cache => "caches"
    case CeleryPing => "celery_ping_timeout"
  }

  /** The message of the `ValueError` for a name missing from the table. */
  function NotFoundMessage(name: string): string
  {
    "Service " + name + " not found"
  }

  /** Exactly the four probe classes can be built by name; Celery, storage and migration probes cannot. */
  lemma ServiceMapKeys()
    ensures ServiceMap.Keys == {"DISK_USAGE", "MEMORY_USAGE", "DATABASE_USAGE", "CACHE"}
    ensures "CELERY" !in ServiceMap && "STORAGE" !in ServiceMap && "MIGRATION" !in ServiceMap
  {
  }

  /** `SERVICE_MAP.get(name)`, raising `ValueError` when the name is missing. */
  function Lookup(name: string): (r: Result<ServiceKind, Failure>)
    ensures r.Ok? <==> name in ServiceMap
    ensures r.Ok? ==> r.value in ServiceMap.Values && ServiceCode(r.value) == name
    ensures r.Err? ==> r.error == ValueError(NotFoundMessage(name))
  {
    if name in ServiceMap then Ok(ServiceMap[name]) else Err(ValueError(NotFoundMessage(name)))
  }

  /** Every class in the table is found under its own `SERVICE_CODE`. */
  lemma LookupByCode(kind: ServiceKind)
    requires kind in ServiceMap.Values
    ensures Lookup(ServiceCode(kind)) == Ok(kind)
  {
    var name :| name in ServiceMap && ServiceMap[name] == kind;
  }

  /**
   * Binding `kind(**options)` for one of the table's classes: an unknown
   * keyword is a `TypeError`, and so is a missing option; `critical_service`
   * defaults to `True`. Python reports an unexpected keyword before a missing one.
   */
  function Construct(kind: ServiceKind, options: map<string, Value>): (r: Result<ServiceConfig, Failure>)
    requires kind in ServiceMap.Values
    ensures r.Ok? <==> options.Keys <= {CriticalServiceParameter, Parameter(kind)} && Parameter(kind) in options
    ensures r.Err? ==> r.error.TypeError?
    ensures !(options.Keys <= {CriticalServiceParameter, Parameter(kind)}) ==> r == Err(TypeError(UnexpectedKeyword))
    ensures r.Ok? ==> r.value.kind == kind && r.value.argument == options[Parameter(kind)]
    ensures r.Ok? && CriticalServiceParameter in options ==> r.value.critical == options[CriticalServiceParameter]
    ensures r.Ok? && CriticalServiceParameter !in options ==> r.value.critical == Bool(true)
  {
    var parameter := Parameter(kind);
    if !(options.Keys <= {CriticalServiceParameter, parameter}) then
      Err(TypeError(UnexpectedKeyword))
    else if parameter !in options then
      Err(TypeError(MissingArgument(parameter)))
    else
      var critical := if CriticalServiceParameter in options then options[CriticalServiceParameter] else Bool(true);
      Ok(ServiceConfig(kind, critical, options[parameter]))
  }

  /** What `get_service(name, options)` builds, or the error it raises. */
  function Build(name: string, options: map<string, Value>): (r: Result<ServiceConfig, Failure>)
    ensures name !in ServiceMap ==> r == Err(ValueError(NotFoundMessage(name)))
    ensures name in ServiceMap ==> r == Construct(ServiceMap[name], options)
    ensures r.Ok? ==> ServiceCode(r.value.kind) == name
  {
    match Lookup(name)
    case Err(e) => Err(e)
    case Ok(kind) => Construct(kind, options)
  }

  /**
   * `ServiceFactory.get_service`: a fresh service of the mapped class built
   * from `options`, or the error of the lookup or of the constructor. It
   * changes no existing state.
   */
  method GetService(name: string, options: map<string, Value>) returns (r: Result<Service, Failure>)
    ensures r.Ok? <==> Build(name, options).Ok?
    ensures r.Ok? ==> fresh(r.value) && r.value.Config() == Build(name, options).value
    ensures r.Ok? ==> r.value.errors == [] && r.value.timeTaken == 0.0
    ensures r.Err? ==> r.error == Build(name, options).error
  {
    var found := Lookup(name);
    if found.Err? {
      return Err(found.error);
    }
    var config := Construct(found.value, options);
    if config.Err? {
      return Err(config.error);
    }
    var service := new Service(config.value.kind, config.value.critical, config.value.argument);
    return Ok(service);
  }
}
