/**
 * guts/migration/drivers/sources/openstack.py: the OpenStack source driver.
 * It lists servers, volumes and networks less the excluded ones, and
 * downloads a server's snapshot or a volume's image into the conversion
 * directory.
 *
 * Each remote listing is an input: None when the listing call raised. A
 * download is a fixed sequence of remote steps; `failure` names the first
 * step that raises, or is None when every step succeeds. Waiting for an
 * image to become active is the single step `WaitActive`.
 */
module OpenStackSource {
  import opened Wrappers
  import opened PyValues
  import opened Exceptions
  import opened MigrationDrivers
  import opened SourceListing
  import opened OpenStackResources
  import Strings

  /** Whether the step runs before `image_id` is bound. */
  predicate BeforeImageId(step: InstanceStep)
  {
    step == GetServer || step == CreateImage
  }

  /** The path a download lands at. */
  function ImagePath(conversionDir: string, name: string): string
  {
    Strings.PathJoin(conversionDir, name)
  }

  class OpenStackSourceDriver {
    const source: SourceDriver
    const configuration: Config
    /** The `conversion_dir` option of the source manager's configuration. */
    const conversionDir: string
    var initialized: bool

    constructor(source: SourceDriver, configuration: Config, conversionDir: string)
      ensures this.source == source && this.configuration == configuration
      ensures this.conversionDir == conversionDir && !initialized
    {
      this.source := source;
      this.configuration := configuration;
      this.conversionDir := conversionDir;
      initialized := false;
    }

    /** `do_setup`: a session and the clients are made, and the driver is initialised. */
    method DoSetup() returns (out: Outcome)
      modifies this
      ensures out == SetupOutcome(configuration)
      ensures initialized == (old(initialized) || out.Pass?)
    {
      out := SetupOutcome(configuration);
      if out.Pass? {
        initialized := true;
      }
    }

    /** The `if not self._initialized: self.do_setup(context)` guard of the listers. */
    method EnsureSetup() returns (out: Outcome)
      modifies this
      ensures old(initialized) ==> out.Pass? && initialized
      ensures !old(initialized) ==> out == SetupOutcome(configuration) && initialized == out.Pass?
    {
      out := Pass;
      if !initialized {
        out := DoSetup();
      }
    }

    /**
     * `get_instances_list`: a failing setup propagates; a failing listing
     * returns None; otherwise one `{name, id, status}` record per server
     * that is not excluded, in listing order.
     */
    method GetInstancesList(servers: Option<seq<Server>>) returns (r: Result<Option<seq<Dict>>>)
      modifies this
      ensures initialized == (old(initialized) || SetupOutcome(configuration).Pass?)
      ensures !initialized ==> r == Err(SetupOutcome(configuration).error)
      ensures initialized && servers.None? ==> r == Ok(None)
      ensures initialized && servers.Some? ==> r == Ok(Some(Listing(servers.value, ServerId, ServerRecord, source.exclude)))
    {
      var setup := EnsureSetup();
      if setup.Fail? {
        return Err(setup.error);
      }
      if servers.None? {
        return Ok(None);
      }
      var records := ListLoop(servers.value, ServerId, ServerRecord, source.exclude);
      r := Ok(Some(records));
    }

    /** `get_volumes_list`: as `get_instances_list`, with `{name = display_name, id, size}` records. */
    method GetVolumesList(volumes: Option<seq<CinderVolume>>) returns (r: Result<Option<seq<Dict>>>)
      modifies this
      ensures initialized == (old(initialized) || SetupOutcome(configuration).Pass?)
      ensures !initialized ==> r == Err(SetupOutcome(configuration).error)
      ensures initialized && volumes.None? ==> r == Ok(None)
      ensures initialized && volumes.Some? ==> r == Ok(Some(Listing(volumes.value, VolumeId, VolumeRecord, source.exclude)))
    {
      var setup := EnsureSetup();
      if setup.Fail? {
        return Err(setup.error);
      }
      if volumes.None? {
        return Ok(None);
      }
      var records := ListLoop(volumes.value, VolumeId, VolumeRecord, source.exclude);
      r := Ok(Some(records));
    }

    /** `get_networks_list`: as `get_instances_list`, with the nine-field network records. */
    method GetNetworksList(networks: Option<seq<NovaNetwork>>) returns (r: Result<Option<seq<Dict>>>)
      modifies this
      ensures initialized == (old(initialized) || SetupOutcome(configuration).Pass?)
      ensures !initialized ==> r == Err(SetupOutcome(configuration).error)
      ensures initialized && networks.None? ==> r == Ok(None)
      ensures initialized && networks.Some? ==> r == Ok(Some(Listing(networks.value, NetworkId, NetworkRecord, source.exclude)))
    {
      var setup := EnsureSetup();
      if setup.Fail? {
        return Err(setup.error);
      }
      if networks.None? {
        return Ok(None);
      }
      var records := ListLoop(networks.value, NetworkId, NetworkRecord, source.exclude);
      r := Ok(Some(records));
    }

    /**
     * `get_instance` as written. Before initialisation `self.do_setup()` is
     * called without its context argument. A failure before the snapshot
     * exists reaches the handler's `image_id` unbound; any later failure is
     * reported as InstanceImageDownloadFailed naming the snapshot.
     */
    function GetInstanceAsWritten(instanceId: string, imageId: string, failure: Option<InstanceStep>): (r: Result<seq<Dict>>)
      reads this
      ensures !initialized ==> r.Err? && r.error.kind == TypeError
      ensures initialized && failure.Some? && BeforeImageId(failure.value) ==> r.Err? && r.error.kind == UnboundLocalError
      ensures initialized && failure.Some? && !BeforeImageId(failure.value) ==> r == GetInstance(instanceId, imageId, failure)
      ensures failure.None? ==> r == GetInstance(instanceId, imageId, failure)
    {
      if !initialized then Err(Exc(TypeError, "do_setup() takes exactly 2 arguments (1 given)"))
      else if failure.Some? && BeforeImageId(failure.value) then
        Err(Exc(UnboundLocalError, "local variable 'image_id' referenced before assignment"))
      else GetInstance(instanceId, imageId, failure)
    }

    /**
     * `get_instance` as meant: every failing step is reported as
     * InstanceImageDownloadFailed, naming the snapshot once it exists and
     * the server before; success yields `[{'0': <conversion_dir>/<image_id>}]`.
     */
    function GetInstance(instanceId: string, imageId: string, failure: Option<InstanceStep>): (r: Result<seq<Dict>>)
      reads this
      ensures !initialized ==> r.Err? && r.error.kind == TypeError
      ensures initialized && failure.None? ==> r.Ok?
      ensures r.Ok? ==> |r.value| == 1 && r.value[0].Keys == {"0"} && r.value[0]["0"] == VStr(ImagePath(conversionDir, imageId))
      ensures initialized && failure.Some? ==> r.Err? && r.error.kind == InstanceImageDownloadFailed
      ensures initialized && failure.Some? && !BeforeImageId(failure.value) ==>
        r.error.detail == "Failed to download instance image from source " + imageId
    {
      if !initialized then Err(Exc(TypeError, "do_setup() takes exactly 2 arguments (1 given)"))
      else if failure.None? then Ok([map["0" := VStr(ImagePath(conversionDir, imageId))]])
      else if BeforeImageId(failure.value) then
        Err(Exc(InstanceImageDownloadFailed, "Failed to download instance image from source " + instanceId))
      else Err(Exc(InstanceImageDownloadFailed, "Failed to download instance image from source " + imageId))
    }

    /** `get_network`: network migration needs nothing from the source; it does nothing and returns None. */
    function GetNetwork(networkId: string): (r: Value)
      ensures r == VNone
    {
      VNone
    }

    /**
     * `get_volume`: before initialisation `do_setup` is called without its
     * context; any failing step is reported as VolumeDownloadFailed naming
     * the volume; success yields `<conversion_dir>/<migration_ref_id>`.
     */
    function GetVolumeImage(volumeId: string, migrationRefId: string, failure: Option<VolumeStep>): (r: Result<string>)
      reads this
      ensures !initialized ==> r.Err? && r.error.kind == TypeError
      ensures initialized ==> (r.Ok? <==> failure.None?)
      ensures r.Ok? ==> r.value == ImagePath(conversionDir, migrationRefId)
      ensures initialized && failure.Some? ==>
        r.error == Exc(VolumeDownloadFailed, "Failed to download volume from source, id: " + volumeId)
    {
      if !initialized then Err(Exc(TypeError, "do_setup() takes exactly 2 arguments (1 given)"))
      else if failure.Some? then Err(Exc(VolumeDownloadFailed, "Failed to download volume from source, id: " + volumeId))
      else Ok(ImagePath(conversionDir, migrationRefId))
    }

    /** The `glance image-download` command line of `_download_image_from_glance`. */
    function DownloadCommand(imageId: string, filePath: string): (cmd: seq<string>)
      ensures |cmd| == 13
      ensures cmd[0] == "glance" && cmd[|cmd| - 1] == imageId && cmd[|cmd| - 2] == filePath
      ensures cmd[1..9] == AuthOptions(Opt(configuration, "username"), Opt(configuration, "password"),
                                       Opt(configuration, "tenant_name"), Opt(configuration, "auth_url"))
    {
      ["glance"] + AuthOptions(Opt(configuration, "username"), Opt(configuration, "password"),
                               Opt(configuration, "tenant_name"), Opt(configuration, "auth_url"))
      + ["image-download", "--file", filePath, imageId]
    }

    /** `_download_image_from_glance`: a failing command is re-raised as `exception.Error`. */
    function DownloadImage(commandFails: bool): (out: Outcome)
      ensures out.Fail? <==> commandFails
      ensures out.Fail? ==> out.error.kind == Error
    {
      if commandFails then Raise(Error, "") else Pass
    }
  }

  /** `OpenStackSourceDriver.__init__`: the base source driver is built first. */
  method NewOpenStackSourceDriver(host: Value, configuration: Option<Config>, conversionDir: string)
    returns (r: Result<OpenStackSourceDriver>)
    ensures r.Ok? <==> ExcludeList(configuration).Ok?
    ensures r.Ok? ==> && fresh(r.value) && !r.value.initialized
                      && r.value.source.exclude == ExcludeList(configuration).value
                      && r.value.configuration == configuration.value
  {
    var source := NewSourceDriver(host, configuration);
    if source.Err? {
      return Err(source.error);
    }
    var driver := new OpenStackSourceDriver(source.value, configuration.value, conversionDir);
    r := Ok(driver);
  }
}
