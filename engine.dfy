/**
 * The orchestration engine (`HealthCheckEngine`): it holds the settings and the
 * ordered list of services, builds the services through the factory, runs
 * every service's check once and turns the services' final state into the
 * report.
 */
module Engine {
  import opened Wrappers
  import opened Values
  import opened Exceptions
  import opened BaseService
  import opened ServiceFactory

  /** One entry of the `SERVICES` setting: its `NAME` and its `OPTIONS`. */
  datatype ServiceSpec = ServiceSpec(name: string, options: map<string, Value>)

  /** The `HEALTH_CHECK` settings; `services` is absent when there is no `SERVICES` key. */
  datatype HealthCheckSettings = HealthCheckSettings(services: Option<seq<ServiceSpec>>)

  /** The `{}` that `__init__` assigns. */
  const EmptySettings: HealthCheckSettings := HealthCheckSettings(None)

  /** The key `load_services` reads. */
  const ServicesKey: string := "SERVICES"

  /** What building the services of `specs` in order gives: the built prefix and the error that stopped it, if any. */
  datatype LoadOutcome = LoadOutcome(built: seq<ServiceConfig>, failure: Option<Failure>)

  /**
   * The services `load_services` builds from `specs`: one per entry, in
   * order, up to the first entry the factory rejects.
   */
  function BuildAll(specs: seq<ServiceSpec>): (o: LoadOutcome)
    ensures |o.built| <= |specs|
    ensures o.failure.None? ==> |o.built| == |specs|
  {
    if specs == [] then LoadOutcome([], None)
    else
      match Build(specs[0].name, specs[0].options)
      case Err(e) => LoadOutcome([], Some(e))
      case Ok(config) =>
        var rest := BuildAll(specs[1..]);
        LoadOutcome([config] + rest.built, rest.failure)
  }

  /**
   * The load builds entry `i` exactly when the factory accepts it, and stops
   * with the error of the first entry the factory rejects.
   */
  lemma {:induction false} BuildAllMeaning(specs: seq<ServiceSpec>)
    ensures var o := BuildAll(specs);
      (forall i :: 0 <= i < |o.built| ==> Build(specs[i].name, specs[i].options) == Ok(o.built[i]))
      && (o.failure.Some? ==>
            |o.built| < |specs| && Build(specs[|o.built|].name, specs[|o.built|].options) == Err(o.failure.value))
  {
    if specs != [] && Build(specs[0].name, specs[0].options).Ok? {
      BuildAllMeaning(specs[1..]);
      assert forall i :: 1 <= i < |specs| ==> specs[i] == specs[1..][i - 1];
    }
  }

  /** Loading succeeds exactly when the factory accepts every entry, and then builds one service per entry. */
  lemma BuildAllSucceedsIff(specs: seq<ServiceSpec>)
    ensures BuildAll(specs).failure.None? <==> forall i :: 0 <= i < |specs| ==> Build(specs[i].name, specs[i].options).Ok?
  {
    BuildAllMeaning(specs);
    var o := BuildAll(specs);
    if o.failure.Some? {
      assert !Build(specs[|o.built|].name, specs[|o.built|].options).Ok?;
    }
  }

  /** Building `specs` from entry `i` on gives the rest of the outcome `o`. */
  ghost predicate Pending(specs: seq<ServiceSpec>, i: nat, o: LoadOutcome)
  {
    i <= |specs| && i <= |o.built| && BuildAll(specs[i..]) == LoadOutcome(o.built[i..], o.failure)
  }

  /** After an accepted entry `i`, the rest of the load is the load of the entries after it. */
  lemma LoadStep(specs: seq<ServiceSpec>, i: nat, o: LoadOutcome, config: ServiceConfig)
    requires i < |specs| && i <= |o.built|
    requires BuildAll(specs[i..]) == LoadOutcome(o.built[i..], o.failure)
    requires Build(specs[i].name, specs[i].options) == Ok(config)
    ensures i < |o.built| && o.built[i] == config
    ensures BuildAll(specs[i + 1..]) == LoadOutcome(o.built[i + 1..], o.failure)
  {
    assert specs[i..][0] == specs[i];
    assert specs[i..][1..] == specs[i + 1..];
    var rest := BuildAll(specs[i + 1..]);
    assert o.built[i..] == [config] + rest.built;
    assert o.built[i..][0] == o.built[i];
    assert o.built[i + 1..] == o.built[i..][1..];
  }

  /** A rejected entry `i` ends the load with exactly the entries before it built. */
  lemma LoadStop(specs: seq<ServiceSpec>, i: nat, o: LoadOutcome, e: Failure)
    requires i < |specs| && i <= |o.built|
    requires BuildAll(specs[i..]) == LoadOutcome(o.built[i..], o.failure)
    requires Build(specs[i].name, specs[i].options) == Err(e)
    ensures |o.built| == i && o.failure == Some(e)
  {
    assert specs[i..][0] == specs[i];
  }

  /** Once every entry is built, nothing more is built and the load succeeds. */
  lemma LoadEnd(specs: seq<ServiceSpec>, o: LoadOutcome)
    requires |specs| <= |o.built|
    requires BuildAll(specs[|specs|..]) == LoadOutcome(o.built[|specs|..], o.failure)
    ensures |o.built| == |specs| && o.failure.None?
  {
    assert specs[|specs|..] == [];
  }

  /** The `STATUS` of a result record. */
  datatype Status = Success | Failed

  /** One record of the report. */
  datatype CheckResult = CheckResult(
    serviceName: string,
    status: Status,
    critical: Value,
    errors: seq<string>,
    timeTaken: real)

  /** The record `retrieve_results` makes of one service. */
  function ResultOf(s: ServiceState): (r: CheckResult)
    ensures r.status == Failed <==> s.errors != []
    ensures r.status == Success <==> s.errors == []
    ensures |r.errors| == |s.errors|
    ensures forall i :: 0 <= i < |s.errors| ==> r.errors[i] == s.errors[i].message
    ensures r.serviceName == ServiceName(s.kind) && r.critical == s.critical && r.timeTaken == s.timeTaken
  {
    CheckResult(ServiceName(s.kind), if s.errors == [] then Success else Failed, s.critical, Messages(s.errors), s.timeTaken)
  }

  /**
   * The record of a freshly built service after one run: it fails exactly when
   * the probe added an error or raised a domain error. A probe that only
   * raised an unexpected exception reports success.
   */
  lemma FreshRunStatus(config: ServiceConfig, run: ProbeRun, start: real, end: real)
    ensures ResultOf(ServiceState(config.kind, config.critical, Recorded(run), end - start)).status == Failed
        <==> (run.reported != [] || run.ending.RaisedDomain?)
  {
  }

  /**
   * An order in which the event loop runs the services' checks: every index
   * below `n` exactly once.
   */
  predicate IsSchedule(schedule: seq<nat>, n: nat)
  {
    (forall k :: 0 <= k < |schedule| ==> schedule[k] < n)
    && (forall i :: 0 <= i < n ==> i in schedule)
    && (forall j, k :: 0 <= j < k < |schedule| ==> schedule[j] != schedule[k])
  }

  /** Two timer readings, taken when a check starts and when it ends. */
  datatype Reading = Reading(start: real, end: real)

  /** `service` was built as `config` and has not run yet: no errors and no time taken. */
  ghost predicate Appended(service: Service, config: ServiceConfig)
    reads service
  {
    service.Config() == config && service.errors == [] && service.timeTaken == 0.0
  }

  /** No service appears twice in `ss`. */
  ghost predicate Distinct(ss: seq<Service>)
  {
    forall i, j :: 0 <= i < j < |ss| ==> ss[i] != ss[j]
  }

  /**
   * The services of `ss` after the prefix `before` were built as `built`, in
   * order, and have not run yet; no service is listed twice.
   */
  ghost predicate LoadedAfter(ss: seq<Service>, before: seq<Service>, built: seq<ServiceConfig>)
    reads set s | s in ss
  {
    Distinct(ss)
    && |ss| == |before| + |built| && ss[..|before|] == before
    && forall k :: 0 <= k < |built| ==> Appended(ss[|before| + k], built[k])
  }

  /** Appending a service not yet listed, built as `c` and not run, extends what is loaded by `c`. */
  lemma LoadedAppend(ss: seq<Service>, before: seq<Service>, built: seq<ServiceConfig>, v: Service, c: ServiceConfig)
    requires LoadedAfter(ss, before, built) && Appended(v, c) && v !in ss
    ensures LoadedAfter(ss + [v], before, built + [c])
  {
    var ss' := ss + [v];
    assert ss'[..|before|] == ss[..|before|];
    forall k | 0 <= k < |built| + 1 ensures Appended(ss'[|before| + k], (built + [c])[k]) {
      if k < |built| {
        assert ss'[|before| + k] == ss[|before| + k];
      }
    }
  }

  /** `HealthCheckEngine`. */
  class HealthCheckEngine {
    var settings: HealthCheckSettings
    var services: seq<Service>

    ghost function Footprint(): set<Service>
      reads this
    {
      set s | s in services
    }

    /** No service appears twice in the list. */
    ghost predicate Valid()
      reads this
    {
      Distinct(services)
    }

    /** `__init__`. */
    constructor ()
      ensures settings == EmptySettings && services == [] && Valid()
    {
      settings := EmptySettings;
      services := [];
    }

    /** `__init__` applied to an existing instance: both fields are reset. */
    method Reset()
      modifies this
      ensures settings == EmptySettings && services == [] && Valid()
    {
      settings := EmptySettings;
      services := [];
    }

    /** `load_settings`, with `settings.HEALTH_CHECK` as the input `config`; the services are kept. */
    method LoadSettings(config: HealthCheckSettings) returns (self: HealthCheckEngine)
      modifies this
      ensures self == this && settings == config && services == old(services)
    {
      settings := config;
      self := this;
    }

    /**
     * The services after `before` were built as `built`, in order, and have
     * not run yet; no service is listed twice.
     */
    ghost predicate Loaded(before: seq<Service>, built: seq<ServiceConfig>)
      reads this, Footprint()
    {
      LoadedAfter(services, before, built)
    }

    /**
     * One iteration of `load_services`: build the service of `specs[i]` and
     * append it. `o` is the outcome of the whole load, of which the entries
     * before `i` are appended after `before`.
     */
    method AppendService(specs: seq<ServiceSpec>, i: nat, ghost o: LoadOutcome, ghost before: seq<Service>) returns (r: Result<Service, Failure>)
      requires i < |specs| && Pending(specs, i, o) && Loaded(before, o.built[..i])
      modifies this
      ensures settings == old(settings)
      ensures r.Err? ==> services == old(services) && |o.built| == i && o.failure == Some(r.error)
      ensures r.Ok? ==> Pending(specs, i + 1, o) && Loaded(before, o.built[..i + 1])
      ensures r.Ok? ==> fresh(r.value) && Footprint() == old(Footprint()) + {r.value}
    {
      r := GetService(specs[i].name, specs[i].options);
      if r.Ok? {
        LoadStep(specs, i, o, r.value.Config());
        LoadedAppend(services, before, o.built[..i], r.value, o.built[i]);
        assert o.built[..i + 1] == o.built[..i] + [o.built[i]];
        services := services + [r.value];
      } else {
        LoadStop(specs, i, o, r.error);
      }
    }

    /**
     * `load_services`: appends one service per `SERVICES` entry, in order,
     * without resetting the list. The first entry the factory rejects raises;
     * the services built before it stay appended. Without a `SERVICES` key it
     * raises `KeyError`.
     */
    method LoadServices() returns (r: Result<HealthCheckEngine, Failure>)
      requires Valid()
      modifies this
      ensures Valid() && settings == old(settings)
      ensures |old(services)| <= |services| && services[..|old(services)|] == old(services)
      ensures fresh(Footprint() - old(Footprint()))
      ensures old(settings).services.None? ==> r == Err(KeyError(ServicesKey)) && services == old(services)
      ensures old(settings).services.Some? ==>
        var o := BuildAll(old(settings).services.value);
        |services| == |old(services)| + |o.built|
        && (forall k :: 0 <= k < |o.built| ==> Appended(services[|old(services)| + k], o.built[k]))
        && r == (if o.failure.None? then Ok(this) else Err(o.failure.value))
    {
      if settings.services.None? {
        return Err(KeyError(ServicesKey));
      }
      var failure := AppendAll(settings.services.value);
      return if failure.None? then Ok(this) else Err(failure.value);
    }

    /** The loop of `load_services`: append the service of each spec in turn, stopping at the first error. */
    method AppendAll(specs: seq<ServiceSpec>) returns (failure: Option<Failure>)
      requires Valid()
      modifies this
      ensures Valid() && settings == old(settings)
      ensures |services| == |old(services)| + |BuildAll(specs).built| && services[..|old(services)|] == old(services)
      ensures forall k :: 0 <= k < |BuildAll(specs).built| ==> Appended(services[|old(services)| + k], BuildAll(specs).built[k])
      ensures fresh(Footprint() - old(Footprint()))
      ensures failure == BuildAll(specs).failure
    {
      ghost var o := BuildAll(specs);
      ghost var before := services;
      var i := 0;
      assert specs[0..] == specs && o.built[0..] == o.built;
      assert Pending(specs, 0, o) && Loaded(before, o.built[..0]);
      while i < |specs|
        invariant 0 <= i <= |specs| && settings == old(settings)
        invariant Pending(specs, i, o) && Loaded(before, o.built[..i])
        invariant fresh(Footprint() - old(Footprint()))
      {
        var service := AppendService(specs, i, o, before);
        if service.Err? {
          assert o.built[..i] == o.built;
          return Some(service.error);
        }
        i := i + 1;
      }
      LoadEnd(specs, o);
      assert o.built[..i] == o.built;
      return None;
    }

    /**
     * `run_checks`: every service runs its check exactly once, in the order
     * `schedule` the event loop picks; service `i`'s probe behaves as
     * `runs[i]` between the readings `clock[i]`. Nothing is raised, and each
     * service's final state depends on its own run alone, whatever the order.
     */
    method RunChecks(schedule: seq<nat>, runs: seq<ProbeRun>, clock: seq<Reading>) returns (self: HealthCheckEngine)
      requires Valid() && |runs| == |services| && |clock| == |services|
      requires IsSchedule(schedule, |services|)
      modifies Footprint()
      ensures self == this
      ensures forall k :: 0 <= k < |services| ==>
        services[k].errors == old(services[k].errors) + Recorded(runs[k])
        && services[k].timeTaken == clock[k].end - clock[k].start
    {
      var j := 0;
      while j < |schedule|
        invariant 0 <= j <= |schedule|
        invariant forall k :: 0 <= k < |services| && k in schedule[..j] ==>
          services[k].errors == old(services[k].errors) + Recorded(runs[k])
          && services[k].timeTaken == clock[k].end - clock[k].start
        invariant forall k :: 0 <= k < |services| && k !in schedule[..j] ==>
          services[k].errors == old(services[k].errors)
      {
        var i := schedule[j];
        assert schedule[..j + 1] == schedule[..j] + [i];
        assert i !in schedule[..j];
        var _ := services[i].RunCheck(runs[i], clock[i].start, clock[i].end);
        j := j + 1;
      }
      assert schedule[..j] == schedule;
      self := this;
    }

    /** `retrieve_results`: one record per service, in the services' order; nothing is changed. */
    method RetrieveResults() returns (results: seq<CheckResult>)
      ensures |results| == |services|
      ensures forall i :: 0 <= i < |services| ==> results[i] == ResultOf(services[i].State())
    {
      results := [];
      var i := 0;
      while i < |services|
        invariant 0 <= i <= |services|
        invariant |results| == i
        invariant forall k :: 0 <= k < i ==> results[k] == ResultOf(services[k].State())
      {
        var service := services[i];
        var status := if service.errors == [] then Success else Failed;
        results := results + [CheckResult(ServiceName(service.kind), status, service.critical, Messages(service.errors), service.timeTaken)];
        i := i + 1;
      }
    }

    /** Retrieving the results twice without running again gives identical reports. */
    method RetrieveResultsTwice() returns (first: seq<CheckResult>, second: seq<CheckResult>)
      ensures first == second
    {
      first := RetrieveResults();
      second := RetrieveResults();
    }
  }

  /**
   * The class object of `HealthCheckEngine`, holding `_instance`. Calling
   * `HealthCheckEngine()` runs `__new__`, which creates the instance once and
   * then keeps returning it, and then `__init__` on it.
   */
  class EngineClass {
    var instance: HealthCheckEngine?

    constructor ()
      ensures instance == null
    {
      instance := null;
    }

    /** `HealthCheckEngine()`: always the same instance, with its settings and services reset. */
    method New() returns (e: HealthCheckEngine)
      modifies this, instance
      ensures old(instance) != null ==> e == old(instance)
      ensures old(instance) == null ==> fresh(e)
      ensures instance == e
      ensures e.settings == EmptySettings && e.services == [] && e.Valid()
    {
      if instance == null {
        instance := new HealthCheckEngine();
      } else {
        instance.Reset();
      }
      e := instance;
    }
  }
}
