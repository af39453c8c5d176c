/**
 * The SourceManager of guts/migration/manager.py: it fetches a resource
 * from the source hypervisor through its driver, converts fetched disks to
 * qcow2, casts the matching create request to the destination host, and
 * reports the driver's capabilities, free space and resources.
 *
 * The driver's answers are parameters: the disks of `get_instance` and the
 * path of `get_volume` (an error where the driver raises), the listing of
 * each capability, the `df` output. Every `convert_image` call is recorded;
 * `convertFails` says which conversions raise.
 */
module SourceService {
  import opened Wrappers
  import opened PyValues
  import opened Exceptions
  import opened MigrationService
  import opened MigrationDrivers
  import Strings

  /** One disk of a fetched instance: the one-entry dict `{index: path}`. */
  datatype Disk = Disk(index: string, path: Value)

  /** A `convert_image(source, target, 'qcow2', run_as_root=False)` call. */
  datatype Conversion = Conversion(source: string, target: string)

  /** What `_convert_disks` has converted so far, and its result. */
  datatype ConvertRun = ConvertRun(calls: seq<Conversion>, result: Result<seq<Disk>>)

  const NoReplace := "object has no attribute 'replace'"

  /** The converted path: every '.vmdk' replaced by '.qcow2'. */
  function Qcow2Path(path: string): string
  {
    Strings.ReplaceAll(path, ".vmdk", ".qcow2")
  }

  /** A path ending in its only '.vmdk' gets that ending turned into '.qcow2'. */
  lemma VmdkBecomesQcow2(stem: string)
    requires !Strings.Occurs(stem + ".vmd", ".vmdk")
    ensures Qcow2Path(stem + ".vmdk") == stem + ".qcow2"
  {
    assert ".vmdk"[..|".vmdk"| - 1] == ".vmd";
    Strings.ReplaceAtEnd(stem, ".vmdk", ".qcow2");
  }

  /** A path without '.vmdk' is converted to itself. */
  lemma PathWithoutVmdkKept(path: string)
    requires !Strings.Occurs(path, ".vmdk")
    ensures Qcow2Path(path) == path
  {
    Strings.ReplaceAbsent(path, ".vmdk", ".qcow2");
  }

  /** One disk of `_convert_disks`: its path is rewritten, then converted from the old path to the new. */
  function ConvertStep(run: ConvertRun, disk: Disk, convertFails: Conversion -> bool): ConvertRun
    requires run.result.Ok?
  {
    if !disk.path.VStr? then ConvertRun(run.calls, Err(Exc(AttributeError, NoReplace)))
    else
      var call := Conversion(disk.path.s, Qcow2Path(disk.path.s));
      if convertFails(call) then ConvertRun(run.calls + [call], Err(Exc(ProcessExecutionError, "")))
      else ConvertRun(run.calls + [call], Ok(run.result.value + [Disk(disk.index, VStr(call.target))]))
  }

  /** `_convert_disks`: the disks in order, stopping at the first that raises. */
  function ConvertAll(disks: seq<Disk>, convertFails: Conversion -> bool): ConvertRun
    decreases |disks|
  {
    if disks == [] then ConvertRun([], Ok([]))
    else
      var init := ConvertAll(disks[..|disks| - 1], convertFails);
      if init.result.Err? then init else ConvertStep(init, disks[|disks| - 1], convertFails)
  }

  /** Once a disk raises, no later disk is converted. */
  lemma {:induction false} ConvertAllStops(disks: seq<Disk>, n: nat, convertFails: Conversion -> bool)
    requires n <= |disks|
    requires ConvertAll(disks[..n], convertFails).result.Err?
    ensures ConvertAll(disks, convertFails) == ConvertAll(disks[..n], convertFails)
    decreases |disks|
  {
    if n < |disks| {
      var init := disks[..|disks| - 1];
      assert init[..n] == disks[..n];
      ConvertAllStops(init, n, convertFails);
    } else {
      assert disks[..n] == disks;
    }
  }

  /**
   * Converting disks whose paths are all strings, none of whose conversions
   * raises: the same disks in the same order, each under its own index with
   * the rewritten path, after one conversion per disk from its old path to
   * its new one.
   */
  lemma {:induction false} ConvertAllSucceeds(disks: seq<Disk>, convertFails: Conversion -> bool)
    requires forall i :: 0 <= i < |disks| ==> disks[i].path.VStr?
    requires forall i :: 0 <= i < |disks| ==> !convertFails(Conversion(disks[i].path.s, Qcow2Path(disks[i].path.s)))
    ensures var run := ConvertAll(disks, convertFails);
      && run.result.Ok? && |run.result.value| == |disks| && |run.calls| == |disks|
      && (forall i :: 0 <= i < |disks| ==>
            run.result.value[i] == Disk(disks[i].index, VStr(Qcow2Path(disks[i].path.s))))
      && (forall i :: 0 <= i < |disks| ==>
            run.calls[i] == Conversion(disks[i].path.s, Qcow2Path(disks[i].path.s)))
    decreases |disks|
  {
    if disks != [] {
      var init := disks[..|disks| - 1];
      forall i | 0 <= i < |init| ensures init[i] == disks[i] {
      }
      ConvertAllSucceeds(init, convertFails);
    }
  }

  /** The disks as the `disks` argument of `create_instance`: a list of one-entry dicts. */
  function DiskList(disks: seq<Disk>): (v: Value)
    ensures v.VList? && |v.items| == |disks|
    ensures forall i :: 0 <= i < |disks| ==> v.items[i] == VDict(map[disks[i].index := disks[i].path])
  {
    VList(seq(|disks|, i requires 0 <= i < |disks| => VDict(map[disks[i].index := disks[i].path])))
  }

  /** The request `_get_instance` casts: the resource's properties with the converted disks under 'disks'. */
  function InstanceRequest(destHost: string, migrationId: string, resourceId: string, properties: Option<Dict>, disks: seq<Disk>): (r: Result<Cast>)
    ensures properties.None? ==> r.Err? && r.error.kind == ValueError
    ensures properties.Some? ==> (r.Ok? <==> CastAdmits(properties.value))
    ensures r.Ok? ==> && r.value.topic == DestinationTopic(destHost) && r.value.operation == "create_instance"
                      && r.value.migrationId == migrationId && r.value.resourceId == resourceId
                      && r.value.kwargs.Keys == properties.value.Keys + {"disks"}
                      && r.value.kwargs["disks"] == DiskList(disks)
                      && (forall key :: key in properties.value && key != "disks" ==> r.value.kwargs[key] == properties.value[key])
  {
    match LiteralEval(properties)
    case Err(e) => Err(e)
    case Ok(info) =>
      CastAdmitsWith(info, "disks", DiskList(disks));
      CastRequest(destHost, "create_instance", migrationId, resourceId, info["disks" := DiskList(disks)])
  }

  /** The request `_get_volume` casts: the resource's properties with the fetched volume's path under 'path'. */
  function VolumeRequest(destHost: string, migrationId: string, resourceId: string, properties: Option<Dict>, path: string): (r: Result<Cast>)
    ensures properties.None? ==> r.Err? && r.error.kind == ValueError
    ensures properties.Some? ==> (r.Ok? <==> CastAdmits(properties.value))
    ensures r.Ok? ==> && r.value.topic == DestinationTopic(destHost) && r.value.operation == "create_volume"
                      && r.value.migrationId == migrationId && r.value.resourceId == resourceId
                      && r.value.kwargs.Keys == properties.value.Keys + {"path"}
                      && r.value.kwargs["path"] == VStr(path)
                      && (forall key :: key in properties.value && key != "path" ==> r.value.kwargs[key] == properties.value[key])
  {
    match LiteralEval(properties)
    case Err(e) => Err(e)
    case Ok(info) =>
      CastAdmitsWith(info, "path", VStr(path));
      CastRequest(destHost, "create_volume", migrationId, resourceId, info["path" := VStr(path)])
  }

  /** The request `_get_network` casts: the resource's properties, unchanged. */
  function NetworkRequest(destHost: string, migrationId: string, resourceId: string, info: Dict): (r: Result<Cast>)
    ensures r.Ok? <==> CastAdmits(info)
    ensures r.Ok? ==> && r.value.topic == DestinationTopic(destHost) && r.value.operation == "create_network"
                      && r.value.migrationId == migrationId && r.value.resourceId == resourceId && r.value.kwargs == info
  {
    CastRequest(destHost, "create_network", migrationId, resourceId, info)
  }

  /** The create request each resource type leads to; other types lead to none. */
  function CreateOperation(resourceType: Value): (op: Option<string>)
    ensures op.Some? <==> resourceType in {VStr("instance"), VStr("volume"), VStr("network")}
  {
    if resourceType == VStr("instance") then Some("create_instance")
    else if resourceType == VStr("volume") then Some("create_volume")
    else if resourceType == VStr("network") then Some("create_network")
    else None
  }

  // ---------------------------------------------------------------------
  // `_report_driver_status`
  // ---------------------------------------------------------------------

  const KnownCapabilities: set<string> := {"instance", "volume", "network"}

  /** One capability of the report: a known one is listed, and kept only when its listing is non-empty. */
  function AddResource(resources: Dict, capability: string, list: string -> Result<Value>): Result<Dict>
  {
    if capability !in KnownCapabilities then Ok(resources)
    else match list(capability)
      case Err(e) => Err(e)
      case Ok(items) => Ok(if Truthy(items) then resources[capability := items] else resources)
  }

  /** The `resources` of a report, built capability by capability. */
  function Resources(capabilities: seq<string>, list: string -> Result<Value>): Result<Dict>
    decreases |capabilities|
  {
    if capabilities == [] then Ok(map[])
    else match Resources(capabilities[..|capabilities| - 1], list)
      case Err(e) => Err(e)
      case Ok(resources) => AddResource(resources, capabilities[|capabilities| - 1], list)
  }

  /**
   * A report's resources hold exactly the known capabilities asked for
   * whose listing is non-empty, each with its listing; the report fails
   * exactly when some known capability asked for cannot be listed.
   */
  lemma {:induction false} ResourcesReported(capabilities: seq<string>, list: string -> Result<Value>)
    ensures Resources(capabilities, list).Err? <==>
      exists i :: 0 <= i < |capabilities| && capabilities[i] in KnownCapabilities && list(capabilities[i]).Err?
    ensures Resources(capabilities, list).Ok? ==> forall key ::
      key in Resources(capabilities, list).value <==>
        key in capabilities && key in KnownCapabilities && list(key).Ok? && Truthy(list(key).value)
    ensures Resources(capabilities, list).Ok? ==> forall key ::
      key in Resources(capabilities, list).value ==> Resources(capabilities, list).value[key] == list(key).value
    decreases |capabilities|
  {
    if capabilities != [] {
      var init := capabilities[..|capabilities| - 1];
      var last := capabilities[|capabilities| - 1];
      ResourcesReported(init, list);
      assert capabilities == init + [last];
      assert forall i :: 0 <= i < |init| ==> capabilities[i] == init[i];
      if Resources(init, list).Err? {
        var i :| 0 <= i < |init| && init[i] in KnownCapabilities && list(init[i]).Err?;
        assert capabilities[i] == init[i];
      } else if Resources(capabilities, list).Err? {
        assert capabilities[|capabilities| - 1] == last;
      } else {
        forall key ensures key in capabilities <==> key in init || key == last {
          if key in capabilities {
            var i :| 0 <= i < |capabilities| && capabilities[i] == key;
            if i < |init| {
              assert init[i] == key;
            }
          }
        }
      }
    }
  }

  /** The status a source manager reports: its capabilities as a list, its free space and its resources. */
  function SourceStatus(capabilities: seq<string>, freeSpace: int, resources: Dict): (status: Dict)
    ensures status.Keys == {"capabilities", "free_space", "resources"}
    ensures status["capabilities"] == StrList(capabilities) && status["free_space"] == VInt(freeSpace)
    ensures status["resources"] == VDict(resources)
  {
    map["capabilities" := StrList(capabilities), "free_space" := VInt(freeSpace), "resources" := VDict(resources)]
  }

  /**
   * The source `_report_driver_status`: the capabilities option split at ','
   * (AttributeError when it is not a string), then the free space of the
   * conversion directory, then the resources; the first failure propagates.
   */
  function SourceReport(cfg: Config, df: Result<string>, list: string -> Result<Value>): (r: Result<Dict>)
    ensures !Opt(cfg, "capabilities").VStr? ==> r.Err? && r.error.kind == AttributeError
    ensures Opt(cfg, "capabilities").VStr? && FreeSpace(df).Err? ==> r == Err(FreeSpace(df).error)
    ensures r.Ok? ==> var capabilities := Strings.Split(Opt(cfg, "capabilities").s, ',');
      && FreeSpace(df).Ok? && Resources(capabilities, list).Ok?
      && r.value == SourceStatus(capabilities, FreeSpace(df).value, Resources(capabilities, list).value)
  {
    var option := Opt(cfg, "capabilities");
    if !option.VStr? then Err(Exc(AttributeError, "object has no attribute 'split'"))
    else
      var capabilities := Strings.Split(option.s, ',');
      match FreeSpace(df)
      case Err(e) => Err(e)
      case Ok(space) =>
        match Resources(capabilities, list)
        case Err(e) => Err(e)
        case Ok(resources) => Ok(SourceStatus(capabilities, space, resources))
  }

  class SourceManager {
    const host: string
    const configuration: Config
    /** The create requests cast so far. */
    var outbox: seq<Cast>
    /** The `convert_image` calls made so far. */
    var conversions: seq<Conversion>
    /** The last status handed to `update_service_capabilities`. */
    var lastCapabilities: Dict

    constructor(host: string, configuration: Config)
      ensures this.host == host && this.configuration == configuration
      ensures outbox == [] && conversions == [] && lastCapabilities == map[]
    {
      this.host := host;
      this.configuration := configuration;
      outbox := [];
      conversions := [];
      lastCapabilities := map[];
    }

    /** `_convert_disks`: every conversion made is recorded, up to the first disk that raises. */
    method ConvertDisks(disks: seq<Disk>, convertFails: Conversion -> bool) returns (r: Result<seq<Disk>>)
      modifies this`conversions
      ensures r == ConvertAll(disks, convertFails).result
      ensures conversions == old(conversions) + ConvertAll(disks, convertFails).calls
    {
      var calls: seq<Conversion> := [];
      var converted: seq<Disk> := [];
      var i := 0;
      while i < |disks|
        invariant 0 <= i <= |disks|
        invariant ConvertAll(disks[..i], convertFails) == ConvertRun(calls, Ok(converted))
        invariant conversions == old(conversions)
      {
        var disk := disks[i];
        assert disks[..i + 1][..i] == disks[..i] && disks[..i + 1][i] == disk;
        if !disk.path.VStr? {
          ConvertAllStops(disks, i + 1, convertFails);
          conversions := conversions + calls;
          return Err(Exc(AttributeError, NoReplace));
        }
        var call := Conversion(disk.path.s, Qcow2Path(disk.path.s));
        calls := calls + [call];
        if convertFails(call) {
          ConvertAllStops(disks, i + 1, convertFails);
          conversions := conversions + calls;
          return Err(Exc(ProcessExecutionError, ""));
        }
        converted := converted + [Disk(disk.index, VStr(call.target))];
        i := i + 1;
      }
      assert disks[..i] == disks;
      conversions := conversions + calls;
      r := Ok(converted);
    }

    /** What `_get_instance` leaves: see `GetInstance`. */
    twostate predicate InstanceFetched(migration: MigrationRecord, resource: ResourceRecord, destHost: string, log: SaveLog,
                                       instanceDisks: Result<seq<Disk>>, convertFails: Conversion -> bool, out: Outcome)
      reads this, migration, log
    {
      && migration.status == old(migration.status) && migration.event == old(migration.event)
      && log.entries == old(log.entries) + [MigrationSaved(migration.id, migration.status, migration.event)]
      && (instanceDisks.Err? ==> out == Fail(instanceDisks.error) && conversions == old(conversions) && outbox == old(outbox))
      && (instanceDisks.Ok? ==>
            var run := ConvertAll(instanceDisks.value, convertFails);
            && conversions == old(conversions) + run.calls
            && (run.result.Err? ==> out == Fail(run.result.error) && outbox == old(outbox))
            && (run.result.Ok? ==>
                  var request := InstanceRequest(destHost, migration.id, resource.id, resource.properties, run.result.value);
                  && (request.Ok? ==> out.Pass? && outbox == old(outbox) + [request.value])
                  && (request.Err? ==> out == Fail(request.error) && outbox == old(outbox))))
    }

    /**
     * `_get_instance`: the migration is saved unchanged, the driver fetches
     * the disks, they are converted, and the create request is cast.
     */
    method GetInstance(migration: MigrationRecord, resource: ResourceRecord, destHost: string, log: SaveLog,
                       instanceDisks: Result<seq<Disk>>, convertFails: Conversion -> bool) returns (out: Outcome)
      modifies this`conversions, this`outbox, log
      ensures InstanceFetched(migration, resource, destHost, log, instanceDisks, convertFails, out)
    {
      migration.Save(log);
      if instanceDisks.Err? {
        return Fail(instanceDisks.error);
      }
      var converted := ConvertDisks(instanceDisks.value, convertFails);
      if converted.Err? {
        return Fail(converted.error);
      }
      var request := InstanceRequest(destHost, migration.id, resource.id, resource.properties, converted.value);
      if request.Err? {
        return Fail(request.error);
      }
      outbox := outbox + [request.value];
      out := Pass;
    }

    /** What `_get_volume` leaves: see `GetVolume`. */
    twostate predicate VolumeFetched(migration: MigrationRecord, resource: ResourceRecord, destHost: string, log: SaveLog,
                                     volumePath: Result<string>, out: Outcome)
      reads this, migration, log
    {
      && conversions == old(conversions)
      && migration.status == VStr("Inprogress") && migration.event == VStr("Fetching from source")
      && log.entries == old(log.entries) + [MigrationSaved(migration.id, VStr("Inprogress"), VStr("Fetching from source"))]
      && (volumePath.Err? ==> out == Fail(volumePath.error) && outbox == old(outbox))
      && (volumePath.Ok? ==>
            var request := VolumeRequest(destHost, migration.id, resource.id, resource.properties, volumePath.value);
            && (request.Ok? ==> out.Pass? && outbox == old(outbox) + [request.value])
            && (request.Err? ==> out == Fail(request.error) && outbox == old(outbox)))
    }

    /**
     * `_get_volume`: the migration is marked in progress and saved before
     * the driver fetches the volume; the create request carries its path.
     */
    method GetVolume(migration: MigrationRecord, resource: ResourceRecord, destHost: string, log: SaveLog,
                     volumePath: Result<string>) returns (out: Outcome)
      modifies migration, this`outbox, log
      ensures VolumeFetched(migration, resource, destHost, log, volumePath, out)
    {
      migration.status := VStr("Inprogress");
      migration.event := VStr("Fetching from source");
      migration.Save(log);
      if volumePath.Err? {
        return Fail(volumePath.error);
      }
      var request := VolumeRequest(destHost, migration.id, resource.id, resource.properties, volumePath.value);
      if request.Err? {
        return Fail(request.error);
      }
      outbox := outbox + [request.value];
      out := Pass;
    }

    /** What `_get_network` leaves: see `GetNetwork`. */
    twostate predicate NetworkFetched(migration: MigrationRecord, resource: ResourceRecord, destHost: string, log: SaveLog,
                                      out: Outcome)
      reads this, migration, log
    {
      && conversions == old(conversions)
      && (resource.properties.None? ==>
            && out.Fail? && out.error.kind == ValueError
            && migration.status == old(migration.status) && migration.event == old(migration.event)
            && log.entries == old(log.entries) && outbox == old(outbox))
      && (resource.properties.Some? ==>
            var request := NetworkRequest(destHost, migration.id, resource.id, resource.properties.value);
            && migration.status == VStr("Inprogress") && migration.event == VStr("Fetching from source")
            && log.entries == old(log.entries) + [MigrationSaved(migration.id, VStr("Inprogress"), VStr("Fetching from source"))]
            && (request.Ok? ==> out.Pass? && outbox == old(outbox) + [request.value])
            && (request.Err? ==> out == Fail(request.error) && outbox == old(outbox)))
    }

    /**
     * `_get_network`: the properties are evaluated first, so properties that
     * are not a literal leave the migration untouched; then the migration is
     * marked in progress and saved, and the properties are cast unchanged.
     */
    method GetNetwork(migration: MigrationRecord, resource: ResourceRecord, destHost: string, log: SaveLog)
      returns (out: Outcome)
      modifies migration, this`outbox, log
      ensures NetworkFetched(migration, resource, destHost, log, out)
    {
      var info := LiteralEval(resource.properties);
      if info.Err? {
        return Fail(info.error);
      }
      migration.status := VStr("Inprogress");
      migration.event := VStr("Fetching from source");
      migration.Save(log);
      var request := NetworkRequest(destHost, migration.id, resource.id, info.value);
      if request.Err? {
        return Fail(request.error);
      }
      outbox := outbox + [request.value];
      out := Pass;
    }

    /**
     * `get_resource`: the handler of the resource's type runs, and does
     * what that handler's method promises; any other type changes nothing.
     * Only an instance converts, and at most one request is cast: the
     * type's create request, to the destination's topic.
     */
    method GetResource(migration: MigrationRecord, resource: ResourceRecord, destHost: string, log: SaveLog,
                       instanceDisks: Result<seq<Disk>>, convertFails: Conversion -> bool, volumePath: Result<string>)
      returns (out: Outcome)
      modifies migration, this`conversions, this`outbox, log
      ensures resource.resourceType == VStr("instance") ==>
        InstanceFetched(migration, resource, destHost, log, instanceDisks, convertFails, out)
      ensures resource.resourceType == VStr("volume") ==> VolumeFetched(migration, resource, destHost, log, volumePath, out)
      ensures resource.resourceType == VStr("network") ==> NetworkFetched(migration, resource, destHost, log, out)
      ensures CreateOperation(resource.resourceType).None? ==>
        && out.Pass? && outbox == old(outbox) && conversions == old(conversions) && log.entries == old(log.entries)
        && migration.status == old(migration.status) && migration.event == old(migration.event)
      ensures resource.resourceType != VStr("instance") ==> conversions == old(conversions)
      ensures outbox == old(outbox) || (|outbox| == |old(outbox)| + 1 && outbox[..|old(outbox)|] == old(outbox))
      ensures |outbox| > |old(outbox)| ==> Some(outbox[|outbox| - 1].operation) == CreateOperation(resource.resourceType)
      ensures |outbox| > |old(outbox)| ==> outbox[|outbox| - 1].topic == DestinationTopic(destHost)
    {
      if resource.resourceType == VStr("instance") {
        out := GetInstance(migration, resource, destHost, log, instanceDisks, convertFails);
      } else if resource.resourceType == VStr("volume") {
        out := GetVolume(migration, resource, destHost, log, volumePath);
      } else if resource.resourceType == VStr("network") {
        out := GetNetwork(migration, resource, destHost, log);
      } else {
        out := Pass;
      }
    }

    /** The loop of `_report_driver_status` over the capabilities, listing each known one. */
    method CollectResources(capabilities: seq<string>, list: string -> Result<Value>) returns (r: Result<Dict>)
      ensures r == Resources(capabilities, list)
    {
      var resources: Dict := map[];
      var i := 0;
      while i < |capabilities|
        invariant 0 <= i <= |capabilities|
        invariant Resources(capabilities[..i], list) == Ok(resources)
      {
        assert capabilities[..i + 1][..i] == capabilities[..i] && capabilities[..i + 1][i] == capabilities[i];
        var capability := capabilities[i];
        if capability in KnownCapabilities {
          var items := list(capability);
          if items.Err? {
            ResourcesStop(capabilities, i + 1, list);
            return Err(items.error);
          }
          if Truthy(items.value) {
            resources := resources[capability := items.value];
          }
        }
        i := i + 1;
      }
      assert capabilities[..i] == capabilities;
      r := Ok(resources);
    }

    /** `_report_driver_status`: a complete report replaces the last reported status. */
    method ReportDriverStatus(df: Result<string>, list: string -> Result<Value>) returns (out: Outcome)
      modifies this`lastCapabilities
      ensures var report := SourceReport(configuration, df, list);
        && (report.Ok? ==> out.Pass? && lastCapabilities == report.value)
        && (report.Err? ==> out == Fail(report.error) && lastCapabilities == old(lastCapabilities))
    {
      var option := Opt(configuration, "capabilities");
      if !option.VStr? {
        return Fail(Exc(AttributeError, "object has no attribute 'split'"));
      }
      var capabilities := Strings.Split(option.s, ',');
      var space := FreeSpace(df);
      if space.Err? {
        return Fail(space.error);
      }
      var resources := CollectResources(capabilities, list);
      if resources.Err? {
        return Fail(resources.error);
      }
      lastCapabilities := SourceStatus(capabilities, space.value, resources.value);
      out := Pass;
    }
  }

  /** Once a listing fails, the report fails with that error whatever follows. */
  lemma {:induction false} ResourcesStop(capabilities: seq<string>, n: nat, list: string -> Result<Value>)
    requires n <= |capabilities|
    requires Resources(capabilities[..n], list).Err?
    ensures Resources(capabilities, list) == Resources(capabilities[..n], list)
    decreases |capabilities|
  {
    if n < |capabilities| {
      var init := capabilities[..|capabilities| - 1];
      assert init[..n] == capabilities[..n];
      ResourcesStop(init, n, list);
    } else {
      assert capabilities[..n] == capabilities;
    }
  }
}
