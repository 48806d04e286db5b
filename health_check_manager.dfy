/**
 * `run_health_checks`: the chain
 * `HealthCheckEngine().load_settings().load_services().run_checks().retrieve_results()`.
 */
module HealthCheckManager {
  import opened Wrappers
  import opened Exceptions
  import opened BaseService
  import opened Engine

  /**
   * The whole chain with the settings `config`. Services are built for every
   * `SERVICES` entry; service `i` runs as `runs[i]` between the readings
   * `clock[i]`, in the order `schedule`. The report has one record per entry,
   * in configuration order, showing exactly that service's own run; a
   * missing `SERVICES` key or a rejected entry raises instead.
   */
  method RunHealthChecks(engines: EngineClass, config: HealthCheckSettings, schedule: seq<nat>, runs: seq<ProbeRun>, clock: seq<Reading>)
    returns (r: Result<seq<CheckResult>, Failure>)
    requires config.services.Some? ==>
      var n := |BuildAll(config.services.value).built|;
      |runs| == n && |clock| == n && IsSchedule(schedule, n)
    modifies engines, engines.instance
    ensures config.services.None? ==> r == Err(KeyError(ServicesKey))
    ensures config.services.Some? && BuildAll(config.services.value).failure.Some? ==>
      r == Err(BuildAll(config.services.value).failure.value)
    ensures config.services.Some? && BuildAll(config.services.value).failure.None? ==>
      var specs := config.services.value;
      var built := BuildAll(specs).built;
      r.Ok? && |r.value| == |specs|
      && forall i :: 0 <= i < |specs| ==>
        r.value[i] == ResultOf(ServiceState(built[i].kind, built[i].critical, Recorded(runs[i]), clock[i].end - clock[i].start))
  {
    var engine := engines.New();
    engine := engine.LoadSettings(config);
    var loaded := engine.LoadServices();
    if loaded.Err? {
      return Err(loaded.error);
    }
    engine := loaded.value;
    var results := RunAndReport(engine, BuildAll(config.services.value).built, schedule, runs, clock);
    return Ok(results);
  }

  /**
   * `.run_checks().retrieve_results()` on an engine whose services were just
   * built as `built`: record `i` shows service `i` after its own run.
   */
  method RunAndReport(engine: HealthCheckEngine, ghost built: seq<ServiceConfig>, schedule: seq<nat>, runs: seq<ProbeRun>, clock: seq<Reading>)
    returns (results: seq<CheckResult>)
    requires engine.Valid() && |engine.services| == |built| && |runs| == |built| && |clock| == |built|
    requires IsSchedule(schedule, |built|)
    requires forall k :: 0 <= k < |built| ==> Appended(engine.services[k], built[k])
    modifies engine.Footprint()
    ensures |results| == |built|
    ensures forall i :: 0 <= i < |built| ==>
      results[i] == ResultOf(ServiceState(built[i].kind, built[i].critical, Recorded(runs[i]), clock[i].end - clock[i].start))
  {
    var engine' := engine.RunChecks(schedule, runs, clock);
    results := engine'.RetrieveResults();
  }
}
