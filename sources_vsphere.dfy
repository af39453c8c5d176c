/**
 * guts/migration/drivers/sources/vsphere.py: the VSphere source driver,
 * which lists the inventory's virtual machines, less the excluded ones.
 *
 * The VSphere connection is a flag set by `do_setup`; the container view's
 * virtual machines, in view order, are the input of the listing.
 */
module VsphereSource {
  import opened Wrappers
  import opened PyValues
  import opened Exceptions
  import opened MigrationDrivers
  import opened SourceListing
  import opened VsphereClient

  /** The id the exclude list is matched against: `config.instanceUuid`. */
  function InstanceUuid(vm: RemoteVm): string
  {
    vm.instanceUuid
  }

  /** The record `get_instances_list` builds for one virtual machine. */
  function InstanceRecord(vm: RemoteVm): (r: Dict)
    ensures r.Keys == {"id", "name", "memory", "vcpus"}
    ensures r["id"] == VStr(vm.instanceUuid) && r["name"] == VStr(vm.name)
    ensures r["memory"] == VInt(vm.memoryMB) && r["vcpus"] == VInt(vm.numCpu)
  {
    map["id" := VStr(vm.instanceUuid), "name" := VStr(vm.name),
        "memory" := VInt(vm.memoryMB), "vcpus" := VInt(vm.numCpu)]
  }

  class VSphereSourceDriver {
    const source: SourceDriver
    /** Whether `do_setup` connected and retrieved the service content. */
    var connected: bool

    constructor(source: SourceDriver)
      ensures this.source == source && !connected
    {
      this.source := source;
      connected := false;
    }

    /** `do_setup`: a failing connection is re-raised and leaves the driver unconnected. */
    method DoSetup(connection: Outcome) returns (out: Outcome)
      modifies this
      ensures out == connection
      ensures connected == (old(connected) || connection.Pass?)
    {
      out := connection;
      if connection.Pass? {
        connected := true;
      }
    }

    /**
     * `get_instances_list`: one record per virtual machine whose uuid is not
     * excluded, in view order; before `do_setup` the service content is missing.
     */
    method GetInstancesList(vms: seq<RemoteVm>) returns (r: Result<seq<Dict>>)
      ensures r.Ok? <==> connected
      ensures r.Err? ==> r.error.kind == AttributeError
      ensures r.Ok? ==> r.value == Listing(vms, InstanceUuid, InstanceRecord, source.exclude)
    {
      if !connected {
        return Err(Exc(AttributeError, "'VSphereSourceDriver' object has no attribute 'content'"));
      }
      var records := ListLoop(vms, InstanceUuid, InstanceRecord, source.exclude);
      r := Ok(records);
    }

    /**
     * `get_volumes_list` and `get_networks_list` as written: `raise
     * NotImplemented` raises the `NotImplemented` constant, which is not an
     * exception, so Python raises TypeError instead.
     */
    function UnimplementedListingAsWritten(): (r: Result<seq<Dict>>)
      ensures r.Err? && r.error.kind == TypeError && r.error.kind != NotImplementedError
    {
      Err(Exc(TypeError, "exceptions must be old-style classes or derived from BaseException, not NotImplementedType"))
    }

    /** `get_volumes_list` and `get_networks_list` as meant: the listing is not implemented. */
    function UnimplementedListing(name: string): (r: Result<seq<Dict>>)
      ensures r.Err? && r.error.kind == NotImplementedError
      ensures r == source.Listing(name)
    {
      Err(Exc(NotImplementedError, "The method " + name + " is not implemented."))
    }
  }

  /**
   * What a listing returns: exactly the virtual machines whose uuid is not
   * excluded, each as its record, in view order.
   */
  lemma InstancesListed(vms: seq<RemoteVm>, exclude: seq<string>)
    ensures var records := Listing(vms, InstanceUuid, InstanceRecord, exclude);
      var kept := Kept(vms, InstanceUuid, exclude);
      && |records| == |kept| <= |vms|
      && (forall i :: 0 <= i < |records| ==> records[i] == InstanceRecord(kept[i]))
      && (forall vm :: vm in kept <==> vm in vms && vm.instanceUuid !in exclude)
  {
    ListingProjectsKept(vms, InstanceUuid, InstanceRecord, exclude);
  }

  /** No listed record carries an excluded uuid. */
  lemma NoExcludedRecord(vms: seq<RemoteVm>, exclude: seq<string>, i: int)
    requires 0 <= i < |Listing(vms, InstanceUuid, InstanceRecord, exclude)|
    ensures var record := Listing(vms, InstanceUuid, InstanceRecord, exclude)[i];
      record.Keys == {"id", "name", "memory", "vcpus"} && record["id"].VStr? && record["id"].s !in exclude
  {
    ListingProjectsKept(vms, InstanceUuid, InstanceRecord, exclude);
    var kept := Kept(vms, InstanceUuid, exclude);
    assert kept[i] in kept;
  }

  /** `VSphereSourceDriver.__init__`: construction fails where the base source driver's does. */
  method NewVSphereSourceDriver(host: Value, configuration: Option<Config>) returns (r: Result<VSphereSourceDriver>)
    ensures r.Ok? <==> ExcludeList(configuration).Ok?
    ensures r.Ok? ==> fresh(r.value) && r.value.source.exclude == ExcludeList(configuration).value && !r.value.connected
  {
    var source := NewSourceDriver(host, configuration);
    if source.Err? {
      return Err(source.error);
    }
    var driver := new VSphereSourceDriver(source.value);
    r := Ok(driver);
  }
}
