/**
 * guts/scheduler/manager.py: the scheduler service, which holds the
 * configured scheduler driver, asks the migration services for their
 * capabilities when it starts, and forwards their reports to the driver.
 *
 * The capability request it casts is recorded in `outbox`; the sleep that
 * follows it is not modelled.
 */
module SchedulerService {
  import opened Wrappers
  import opened PyValues
  import opened HostManagement
  import opened SchedulerDriver

  /** Default of `scheduler_driver`. */
  const DefaultSchedulerDriver: string := "guts.scheduler.filter_scheduler.FilterScheduler"

  class SchedulerManager {
    const driver: FilterScheduler
    /** `_startup_delay`. */
    var startupDelay: bool
    /** The RPC casts this manager has sent, by method name. */
    var outbox: seq<string>

    constructor(driver: FilterScheduler)
      ensures this.driver == driver && startupDelay && outbox == []
    {
      this.driver := driver;
      startupDelay := true;
      outbox := [];
    }

    /** `init_host_with_rpc`: the capability request goes out before the start-up delay ends. */
    method InitHostWithRpc()
      modifies this
      ensures outbox == old(outbox) + ["publish_service_capabilities"]
      ensures !startupDelay
    {
      outbox := outbox + ["publish_service_capabilities"];
      startupDelay := false;
    }

    /** `reset`: the driver's RPC clients are replaced; the manager's own state stays. */
    method Reset()
      modifies driver.scheduler
      ensures fresh(driver.scheduler.sourceRpcapi) && driver.scheduler.sourceRpcapi.service == "source"
      ensures fresh(driver.scheduler.destinationRpcapi) && driver.scheduler.destinationRpcapi.service == "destination"
    {
      driver.scheduler.Reset();
    }

    /**
     * `update_service_capabilities`: a missing report becomes an empty one;
     * the service name and host are forwarded unchanged.
     */
    method UpdateServiceCapabilities(serviceName: Option<string>, host: string, capabilities: Option<Dict>, now: int)
      requires driver.scheduler.hostManager.Valid()
      modifies driver.scheduler.hostManager
      ensures driver.scheduler.hostManager.Valid()
      ensures driver.scheduler.hostManager.CapabilitiesUpdated(serviceName, host,
                if capabilities.None? then map[] else capabilities.value, now)
    {
      var report := if capabilities.None? then map[] else capabilities.value;
      driver.scheduler.UpdateServiceCapabilities(serviceName, host, report, now);
    }
  }
}
