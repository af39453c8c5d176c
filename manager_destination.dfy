/**
 * The DestinationManager of guts/migration/manager.py: it receives the
 * create requests the source manager casts, hands them to its driver, and
 * records the outcome on the Migration and Resource records.
 *
 * The driver call is recorded with the arguments it is given; `result` is
 * what the call raises, or Pass when it returns. The OpenStack driver's
 * own behaviour is modelled in the OpenStackDestination module, and the
 * lemmas at the end connect the two.
 */
module DestinationService {
  import opened Wrappers
  import opened PyValues
  import opened Exceptions
  import opened MigrationDrivers
  import opened MigrationService
  import OpenStackDestination
  import OpenStackResources

  /** A call of a driver method with its keyword arguments. */
  datatype DriverCall = DriverCall(operation: string, kwargs: Dict)

  const CreatingEvent := "Creating at destination"

  /**
   * The saves of a create handler: the migration with the new event, then,
   * on success, COMPLETE on the migration followed by `migrated` on the
   * resource; on a failure the handler catches, ERROR on the migration; on
   * any other failure nothing more.
   */
  function HandlerSaves(migrationId: string, status: Value, resourceId: string, result: Outcome, caught: Kind): seq<Saved>
  {
    [MigrationSaved(migrationId, status, VStr(CreatingEvent))]
    + if result.Pass? then [MigrationSaved(migrationId, VStr("COMPLETE"), VNone), ResourceSaved(resourceId, true)]
      else if IsA(result.error.kind, caught) then [MigrationSaved(migrationId, VStr("ERROR"), VNone)]
      else []
  }

  /**
   * The resource is saved, as migrated, exactly when the driver call
   * succeeds, and only after the migration was saved COMPLETE; a migration
   * ends in ERROR exactly when the failure is of the class caught.
   */
  lemma HandlerSaveOrder(migrationId: string, status: Value, resourceId: string, result: Outcome, caught: Kind)
    ensures var saves := HandlerSaves(migrationId, status, resourceId, result, caught);
      && (ResourceSaved(resourceId, true) in saves <==> result.Pass?)
      && (result.Pass? ==> saves[|saves| - 1] == ResourceSaved(resourceId, true)
                           && saves[|saves| - 2] == MigrationSaved(migrationId, VStr("COMPLETE"), VNone))
      && (MigrationSaved(migrationId, VStr("ERROR"), VNone) in saves[1..] <==> result.Fail? && IsA(result.error.kind, caught))
  {
    var saves := HandlerSaves(migrationId, status, resourceId, result, caught);
    if ResourceSaved(resourceId, true) in saves {
      assert saves[0].MigrationSaved?;
    }
    if MigrationSaved(migrationId, VStr("ERROR"), VNone) in saves[1..] {
      assert saves[1..] != [];
    }
  }

  /** The status a destination manager reports: its capabilities option as it is, and its free space. */
  function DestinationReport(cfg: Config, df: Result<string>): (r: Result<Dict>)
    ensures r.Ok? <==> FreeSpace(df).Ok?
    ensures r.Err? ==> r.error == FreeSpace(df).error
    ensures r.Ok? ==> && r.value.Keys == {"capabilities", "free_space"}
                      && r.value["capabilities"] == Opt(cfg, "capabilities")
                      && r.value["free_space"] == VInt(FreeSpace(df).value)
  {
    match FreeSpace(df)
    case Err(e) => Err(e)
    case Ok(space) => Ok(map["capabilities" := Opt(cfg, "capabilities"), "free_space" := VInt(space)])
  }

  class DestinationManager {
    const host: string
    const configuration: Config
    /** The driver calls made so far. */
    var calls: seq<DriverCall>
    /** The last status handed to `update_service_capabilities`. */
    var lastCapabilities: Dict

    constructor(host: string, configuration: Config)
      ensures this.host == host && this.configuration == configuration
      ensures calls == [] && lastCapabilities == map[]
    {
      this.host := host;
      this.configuration := configuration;
      calls := [];
      lastCapabilities := map[];
    }

    /** `_report_driver_status`: a complete report replaces the last reported status. */
    method ReportDriverStatus(df: Result<string>) returns (out: Outcome)
      modifies this`lastCapabilities
      ensures var report := DestinationReport(configuration, df);
        && (report.Ok? ==> out.Pass? && lastCapabilities == report.value)
        && (report.Err? ==> out == Fail(report.error) && lastCapabilities == old(lastCapabilities))
    {
      var report := DestinationReport(configuration, df);
      if report.Err? {
        return Fail(report.error);
      }
      lastCapabilities := report.value;
      out := Pass;
    }

    /**
     * The part the three create handlers share: the event is set and saved,
     * the driver is called, and its result is recorded as the handler's
     * `except caught:` clause and the lines after it say.
     */
    method Conclude(migration: MigrationRecord, resource: ResourceRecord, log: SaveLog,
                    operation: string, kwargs: Dict, result: Outcome, caught: Kind) returns (out: Outcome)
      modifies this`calls, migration, resource, log
      ensures out == result
      ensures calls == old(calls) + [DriverCall(operation, kwargs)]
      ensures log.entries == old(log.entries) + HandlerSaves(migration.id, old(migration.status), resource.id, result, caught)
      ensures result.Pass? ==> migration.status == VStr("COMPLETE") && migration.event == VNone && resource.migrated
      ensures result.Fail? && IsA(result.error.kind, caught) ==>
        migration.status == VStr("ERROR") && migration.event == VNone && resource.migrated == old(resource.migrated)
      ensures result.Fail? && !IsA(result.error.kind, caught) ==>
        migration.status == old(migration.status) && migration.event == VStr(CreatingEvent)
        && resource.migrated == old(resource.migrated)
    {
      migration.event := VStr(CreatingEvent);
      migration.Save(log);
      calls := calls + [DriverCall(operation, kwargs)];
      out := result;
      if result.Fail? {
        if IsA(result.error.kind, caught) {
          migration.status := VStr("ERROR");
          migration.event := VNone;
          migration.Save(log);
        }
        return;
      }
      migration.status := VStr("COMPLETE");
      migration.event := VNone;
      migration.Save(log);
      resource.migrated := true;
      resource.Save(log);
    }

    /**
     * `create_network`: the 'id' and 'name' keyword arguments are removed
     * (a KeyError, before anything is saved, when either is missing) and the
     * rest go to the driver; a NetworkCreationFailed marks the migration ERROR.
     */
    method CreateNetwork(migration: MigrationRecord, resource: ResourceRecord, log: SaveLog, kwargs: Dict, result: Outcome)
      returns (out: Outcome)
      modifies this`calls, migration, resource, log
      ensures "id" !in kwargs || "name" !in kwargs ==>
        && out.Fail? && out.error.kind == KeyError && calls == old(calls) && log.entries == old(log.entries)
        && migration.status == old(migration.status) && migration.event == old(migration.event)
        && resource.migrated == old(resource.migrated)
      ensures "id" in kwargs && "name" in kwargs ==>
        && out == result
        && calls == old(calls) + [DriverCall("create_network", kwargs - {"id", "name"})]
        && log.entries == old(log.entries) + HandlerSaves(migration.id, old(migration.status), resource.id, result, NetworkCreationFailed)
        && (result.Pass? ==> migration.status == VStr("COMPLETE") && migration.event == VNone && resource.migrated)
        && (result.Fail? && IsA(result.error.kind, NetworkCreationFailed) ==>
              migration.status == VStr("ERROR") && migration.event == VNone && resource.migrated == old(resource.migrated))
        && (result.Fail? && !IsA(result.error.kind, NetworkCreationFailed) ==>
              migration.status == old(migration.status) && resource.migrated == old(resource.migrated))
    {
      if "id" !in kwargs {
        return Raise(KeyError, "id");
      }
      if "name" !in kwargs {
        return Raise(KeyError, "name");
      }
      out := Conclude(migration, resource, log, "create_network", kwargs - {"id", "name"}, result, NetworkCreationFailed);
    }

    /**
     * `create_volume` as written: the 'id' keyword argument is removed and
     * `mig_ref_id` added, and the handler catches NetworkCreationFailed,
     * which the volume driver does not raise.
     */
    method CreateVolumeAsWritten(migration: MigrationRecord, resource: ResourceRecord, log: SaveLog, kwargs: Dict, result: Outcome)
      returns (out: Outcome)
      modifies this`calls, migration, resource, log
      ensures "id" !in kwargs ==>
        && out.Fail? && out.error.kind == KeyError && calls == old(calls) && log.entries == old(log.entries)
        && migration.status == old(migration.status) && migration.event == old(migration.event)
        && resource.migrated == old(resource.migrated)
      ensures "id" in kwargs ==>
        && out == result
        && calls == old(calls) + [DriverCall("create_volume", (kwargs - {"id"})["mig_ref_id" := VStr(migration.id)])]
        && log.entries == old(log.entries) + HandlerSaves(migration.id, old(migration.status), resource.id, result, NetworkCreationFailed)
        && (result.Pass? ==> migration.status == VStr("COMPLETE") && migration.event == VNone && resource.migrated)
        && (result.Fail? && result.error.kind == VolumeCreationFailed ==>
              migration.status == old(migration.status) && migration.event == VStr(CreatingEvent)
              && resource.migrated == old(resource.migrated))
    {
      if "id" !in kwargs {
        return Raise(KeyError, "id");
      }
      VolumeFailureNotCaught();
      out := Conclude(migration, resource, log, "create_volume", (kwargs - {"id"})["mig_ref_id" := VStr(migration.id)],
                      result, NetworkCreationFailed);
    }

    /** A VolumeCreationFailed is not a NetworkCreationFailed. */
    lemma VolumeFailureNotCaught()
      ensures !IsA(VolumeCreationFailed, NetworkCreationFailed)
    {
      assert Parent(VolumeCreationFailed) == None;
    }

    /**
     * `create_volume` as meant: as written, but catching the
     * VolumeCreationFailed the volume driver raises, so a failed volume
     * creation marks the migration ERROR.
     */
    method CreateVolume(migration: MigrationRecord, resource: ResourceRecord, log: SaveLog, kwargs: Dict, result: Outcome)
      returns (out: Outcome)
      modifies this`calls, migration, resource, log
      ensures "id" !in kwargs ==>
        && out.Fail? && out.error.kind == KeyError && calls == old(calls) && log.entries == old(log.entries)
        && migration.status == old(migration.status) && migration.event == old(migration.event)
        && resource.migrated == old(resource.migrated)
      ensures "id" in kwargs ==>
        && out == result
        && calls == old(calls) + [DriverCall("create_volume", (kwargs - {"id"})["mig_ref_id" := VStr(migration.id)])]
        && log.entries == old(log.entries) + HandlerSaves(migration.id, old(migration.status), resource.id, result, VolumeCreationFailed)
        && (result.Pass? ==> migration.status == VStr("COMPLETE") && migration.event == VNone && resource.migrated)
        && (result.Fail? && result.error.kind == VolumeCreationFailed ==>
              migration.status == VStr("ERROR") && migration.event == VNone && resource.migrated == old(resource.migrated))
    {
      if "id" !in kwargs {
        return Raise(KeyError, "id");
      }
      out := Conclude(migration, resource, log, "create_volume", (kwargs - {"id"})["mig_ref_id" := VStr(migration.id)],
                      result, VolumeCreationFailed);
    }

    /**
     * `create_instance`: `mig_ref_id` is added to the keyword arguments, and
     * a NetworkCreationFailed marks the migration ERROR.
     */
    method CreateInstance(migration: MigrationRecord, resource: ResourceRecord, log: SaveLog, kwargs: Dict, result: Outcome)
      returns (out: Outcome)
      modifies this`calls, migration, resource, log
      ensures out == result
      ensures calls == old(calls) + [DriverCall("create_instance", kwargs["mig_ref_id" := VStr(migration.id)])]
      ensures log.entries == old(log.entries) + HandlerSaves(migration.id, old(migration.status), resource.id, result, NetworkCreationFailed)
      ensures result.Pass? ==> migration.status == VStr("COMPLETE") && migration.event == VNone && resource.migrated
      ensures result.Fail? && !IsA(result.error.kind, NetworkCreationFailed) ==>
        migration.status == old(migration.status) && resource.migrated == old(resource.migrated)
    {
      out := Conclude(migration, resource, log, "create_instance", kwargs["mig_ref_id" := VStr(migration.id)],
                      result, NetworkCreationFailed);
    }
  }

  /**
   * Every failure of the OpenStack volume driver on the arguments
   * `create_volume` passes, which hold `mig_ref_id`, is a
   * VolumeCreationFailed or a failure of its setup, and none is a
   * NetworkCreationFailed: the handler as written catches none of them.
   */
  lemma VolumeFailuresEscapeHandler(cfg: Config, initialized: bool, kwargs: Dict,
                                    imageActive: bool, fails: OpenStackDestination.Action -> bool)
    requires "mig_ref_id" in kwargs
    requires OpenStackDestination.VolumeRun(cfg, initialized, kwargs, imageActive, fails).outcome.Fail?
    ensures var e := OpenStackDestination.VolumeRun(cfg, initialized, kwargs, imageActive, fails).outcome.error;
      && !IsA(e.kind, NetworkCreationFailed)
      && (OpenStackDestination.SetUp(cfg, initialized) ==> e.kind == VolumeCreationFailed)
  {
    var run := OpenStackDestination.VolumeRun(cfg, initialized, kwargs, imageActive, fails);
    var e := run.outcome.error;
    LeafCaughtOnlyBySelf(e.kind, NetworkCreationFailed);
    if !OpenStackDestination.SetUp(cfg, initialized) {
      assert run.outcome == OpenStackResources.SetupOutcome(cfg);
      assert e.kind == ValueError || e.kind == UnboundLocalError;
    } else {
      assert e.kind == VolumeCreationFailed;
    }
  }

  /** No disk of the OpenStack instance driver's loop raises NetworkCreationFailed. */
  lemma {:induction false} DisksNeverFailNetwork(initialized: bool, kwargs: Dict, migRef: string, disks: seq<Value>,
                                                fails: OpenStackDestination.Action -> bool)
    ensures var run := OpenStackDestination.DisksRun(initialized, kwargs, migRef, disks, fails);
      run.outcome.Fail? ==> run.outcome.error.kind != NetworkCreationFailed
    decreases |disks|
  {
    if disks != [] {
      DisksNeverFailNetwork(initialized, kwargs, migRef, disks[..|disks| - 1], fails);
    }
  }

  /**
   * No failure of the OpenStack instance driver is a NetworkCreationFailed,
   * so `create_instance`'s handler never marks a migration ERROR.
   */
  lemma InstanceFailuresEscapeHandler(initialized: bool, kwargs: Dict, fails: OpenStackDestination.Action -> bool)
    requires OpenStackDestination.InstanceRun(initialized, kwargs, fails).outcome.Fail?
    ensures !IsA(OpenStackDestination.InstanceRun(initialized, kwargs, fails).outcome.error.kind, NetworkCreationFailed)
  {
    var e := OpenStackDestination.InstanceRun(initialized, kwargs, fails).outcome.error;
    LeafCaughtOnlyBySelf(e.kind, NetworkCreationFailed);
    if "disks" in kwargs && "mig_ref_id" in kwargs && kwargs["disks"].VList? {
      DisksNeverFailNetwork(initialized, kwargs, Render(kwargs["mig_ref_id"]), kwargs["disks"].items, fails);
    }
  }
}
