/**
 * guts/scheduler/driver.py and guts/scheduler/filter_scheduler.py: the
 * scheduler base class, which delegates readiness and capability reports to
 * its host manager, and the filter scheduler, which validates
 * `scheduler_max_attempts` when it is built.
 *
 * The filter scheduler's base-class part is the `scheduler` it holds.
 */
module SchedulerDriver {
  import opened Wrappers
  import opened PyValues
  import opened Exceptions
  import opened HostManagement

  /** Defaults of `scheduler_host_manager` and `scheduler_max_attempts`. */
  const DefaultHostManager: string := "guts.scheduler.host_manager.HostManager"
  const DefaultMaxAttempts: int := 3

  /** A migration RPC client (`SourceAPI()` or `DestinationAPI()`), known by the service it talks to. */
  class RpcApi {
    const service: string

    constructor(service: string)
      ensures this.service == service
    {
      this.service := service;
    }
  }

  class Scheduler {
    const hostManager: HostManager
    var sourceRpcapi: RpcApi
    var destinationRpcapi: RpcApi

    constructor(hostManager: HostManager)
      ensures this.hostManager == hostManager
      ensures fresh(sourceRpcapi) && sourceRpcapi.service == "source"
      ensures fresh(destinationRpcapi) && destinationRpcapi.service == "destination"
    {
      this.hostManager := hostManager;
      sourceRpcapi := new RpcApi("source");
      destinationRpcapi := new RpcApi("destination");
    }

    /** `reset`: both RPC clients are replaced by new ones, and nothing else changes. */
    method Reset()
      modifies this
      ensures fresh(sourceRpcapi) && sourceRpcapi.service == "source"
      ensures fresh(destinationRpcapi) && destinationRpcapi.service == "destination"
    {
      sourceRpcapi := new RpcApi("source");
      destinationRpcapi := new RpcApi("destination");
    }

    /** `is_ready`: every up migration service has reported its capabilities. */
    function IsReady(): (r: bool)
      reads this, hostManager
      ensures r <==> hostManager.noCapabilitiesHosts == {}
    {
      hostManager.HasAllCapabilities()
    }

    /** `update_service_capabilities`: the report goes to the host manager unchanged. */
    method UpdateServiceCapabilities(serviceName: Option<string>, host: string, capabilities: Dict, now: int)
      requires hostManager.Valid()
      modifies hostManager
      ensures hostManager.Valid()
      ensures hostManager.CapabilitiesUpdated(serviceName, host, capabilities, now)
      ensures sourceRpcapi == old(sourceRpcapi) && destinationRpcapi == old(destinationRpcapi)
    {
      hostManager.UpdateServiceCapabilities(serviceName, host, capabilities, now);
    }

    /** The base `host_passes_filters`, which subclasses must override. */
    function HostPassesFilters(migrationId: Value, host: string): (r: Result<bool>)
      ensures r.Err? && r.error.kind == NotImplementedError
    {
      Err(Exc(NotImplementedError, "Must implement host_passes_filters"))
    }

    /** The base `schedule`, which subclasses must override. */
    function Schedule(topic: string, rpcMethod: string): (r: Result<Option<string>>)
      ensures r.Err? && r.error.kind == NotImplementedError
    {
      Err(Exc(NotImplementedError, "Must implement a fallback schedule"))
    }

    /** The base `schedule_create_migration`, which subclasses must override. */
    function ScheduleCreateMigration(requestSpec: Dict): (r: Result<Option<string>>)
      ensures r.Err? && r.error.kind == NotImplementedError
    {
      Err(Exc(NotImplementedError, "Must implement schedule_create_migration"))
    }
  }

  /** `_max_attempts`: the configured value, which must be at least 1. */
  function MaxAttempts(configured: int): (r: Result<int>)
    ensures r.Ok? <==> configured >= 1
    ensures r.Ok? ==> r.value == configured
    ensures r.Err? ==> r.error.kind == InvalidParameterValue
  {
    if configured < 1 then
      Err(Exc(InvalidParameterValue, "Invalid value for 'scheduler_max_attempts', must be >=1"))
    else
      Ok(configured)
  }

  class FilterScheduler {
    const scheduler: Scheduler
    const maxAttempts: int

    constructor(scheduler: Scheduler, maxAttempts: int)
      requires maxAttempts >= 1
      ensures this.scheduler == scheduler && this.maxAttempts == maxAttempts
    {
      this.scheduler := scheduler;
      this.maxAttempts := maxAttempts;
    }

    /** The filter scheduler's `schedule` is a stub: it selects no host. */
    function Schedule(topic: string, rpcMethod: string): (host: Option<string>)
      ensures host.None?
    {
      None
    }
  }

  /**
   * `FilterScheduler.__init__`: the base part is built first, then the
   * configured `scheduler_max_attempts` is validated; an invalid value
   * makes construction fail with InvalidParameterValue.
   */
  method NewFilterScheduler(hostManager: HostManager, configuredMaxAttempts: int)
    returns (r: Result<FilterScheduler>)
    ensures r.Ok? <==> configuredMaxAttempts >= 1
    ensures r.Ok? ==> fresh(r.value) && fresh(r.value.scheduler)
    ensures r.Ok? ==> r.value.maxAttempts == configuredMaxAttempts && r.value.scheduler.hostManager == hostManager
    ensures r.Err? ==> r.error == MaxAttempts(configuredMaxAttempts).error
  {
    var scheduler := new Scheduler(hostManager);
    var attempts := MaxAttempts(configuredMaxAttempts);
    if attempts.Err? {
      return Err(attempts.error);
    }
    var filterScheduler := new FilterScheduler(scheduler, attempts.value);
    r := Ok(filterScheduler);
  }
}
