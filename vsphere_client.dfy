/**
 * guts/migration/drivers/vsphere/client.py: fetching a VM's disks from
 * VSphere through an export lease, the lease request, and the inventory
 * listing.
 *
 * The VSphere inventory is a constant sequence of `RemoteVm` values; each
 * one carries the leases its first and second `ExportVm` calls return. The
 * requests the client sends (exports, downloads, lease completion) are
 * appended to `requests`; whether a download raises is decided by `fails`.
 */
module VsphereClient {
  import opened Wrappers
  import opened PyValues
  import opened Exceptions
  import opened MigrationVm
  import Strings

  /** The states of an `HttpNfcLease`. */
  datatype LeaseState = Initializing | Ready | Done | LeaseError

  datatype DeviceUrl = DeviceUrl(targetId: string, url: string)

  /** A lease; `info` is None while the lease carries no device information. */
  datatype Lease = Lease(state: LeaseState, info: Option<seq<DeviceUrl>>)

  /** A virtual machine in the VSphere inventory. */
  datatype RemoteVm = RemoteVm(
    name: string, instanceUuid: string, guestId: string, vmPathName: string,
    memoryMB: int, numCpu: int,
    firstExport: Lease, secondExport: Lease)

  /** A request the client sends to VSphere. */
  datatype Request = Export(uuid: string) | Download(url: string) | LeaseComplete

  /** The first VM of `vms` with the given instance uuid (`FindByUuid`). */
  function Find(vms: seq<RemoteVm>, uuid: string): (r: Option<RemoteVm>)
    ensures r.None? <==> forall i :: 0 <= i < |vms| ==> vms[i].instanceUuid != uuid
    ensures r.Some? ==> exists i :: 0 <= i < |vms| && vms[i] == r.value && r.value.instanceUuid == uuid &&
                          forall j :: 0 <= j < i ==> vms[j].instanceUuid != uuid
  {
    if |vms| == 0 then None
    else if vms[0].instanceUuid == uuid then Some(vms[0])
    else
      var r := Find(vms[1..], uuid);
      assert forall i :: 0 < i < |vms| ==> vms[i] == vms[1..][i - 1];
      r
  }

  /** The lease `_get_vm_lease` ends with: the first export, unless it is not ready. */
  function LeaseOf(vm: RemoteVm): Lease
  {
    if vm.firstExport.state == Ready then vm.firstExport else vm.secondExport
  }

  /** The exports `_get_vm_lease` requests. */
  function ExportRequests(vm: RemoteVm): seq<Request>
  {
    if vm.firstExport.state == Ready then [Export(vm.instanceUuid)] else [Export(vm.instanceUuid), Export(vm.instanceUuid)]
  }

  /** A second export is requested at most once, and only when the first lease is not ready. */
  lemma ExportsAtMostTwice(vm: RemoteVm)
    ensures 1 <= |ExportRequests(vm)| <= 2
    ensures |ExportRequests(vm)| == 2 <==> vm.firstExport.state != Ready
    ensures |ExportRequests(vm)| == 1 ==> LeaseOf(vm) == vm.firstExport
  {
  }

  /** The ids of the lease's disks, in order. */
  function TargetIds(urls: seq<DeviceUrl>): (ids: seq<string>)
    ensures |ids| == |urls|
    ensures forall i :: 0 <= i < |urls| ==> ids[i] == urls[i].targetId
  {
    if |urls| == 0 then [] else [urls[0].targetId] + TargetIds(urls[1..])
  }

  /**
   * What the disk loop of `fetch_vm` does: the disk ids it appends to
   * `vm_disks`, the files that exist afterwards, the URLs it downloads
   * (the last one possibly failing), and whether it got through every disk.
   */
  datatype FetchResult = FetchResult(disks: seq<string>, paths: set<string>, downloads: seq<DeviceUrl>, complete: bool)

  /** The disk loop of `fetch_vm` over `urls`, for a VM in `basePath` when the files `paths` exist. */
  function FetchDisks(urls: seq<DeviceUrl>, basePath: string, paths: set<string>, fails: DeviceUrl -> bool): FetchResult
  {
    if |urls| == 0 then FetchResult([], paths, [], true)
    else
      var d := urls[0];
      var path := Strings.PathJoin(basePath, d.targetId);
      if path in paths then
        var r := FetchDisks(urls[1..], basePath, paths, fails);
        r.(disks := [d.targetId] + r.disks)
      else if fails(d) then
        FetchResult([d.targetId], paths, [d], false)
      else
        var r := FetchDisks(urls[1..], basePath, paths + {path}, fails);
        r.(disks := [d.targetId] + r.disks, downloads := [d] + r.downloads)
  }

  /** `r` after the disks `ds` and the downloads `ws` that came before it. */
  function After(ds: seq<string>, ws: seq<DeviceUrl>, r: FetchResult): FetchResult
  {
    r.(disks := ds + r.disks, downloads := ws + r.downloads)
  }

  /**
   * Every disk id is appended in order, skipped or not, up to the disk
   * whose download fails; a complete loop appends them all; files are only
   * ever added.
   */
  lemma {:induction false} FetchAppendsInOrder(urls: seq<DeviceUrl>, basePath: string, paths: set<string>, fails: DeviceUrl -> bool)
    ensures var r := FetchDisks(urls, basePath, paths, fails);
      && |r.disks| <= |urls|
      && r.disks == TargetIds(urls)[..|r.disks|]
      && (r.complete ==> r.disks == TargetIds(urls))
      && paths <= r.paths
  {
    if |urls| > 0 {
      var path := Strings.PathJoin(basePath, urls[0].targetId);
      if path in paths {
        FetchAppendsInOrder(urls[1..], basePath, paths, fails);
      } else if !fails(urls[0]) {
        FetchAppendsInOrder(urls[1..], basePath, paths + {path}, fails);
      }
    }
  }

  /** A disk whose file exists already is never downloaded. */
  lemma {:induction false} FetchSkipsExisting(urls: seq<DeviceUrl>, basePath: string, paths: set<string>, fails: DeviceUrl -> bool)
    ensures forall d :: d in FetchDisks(urls, basePath, paths, fails).downloads ==> Strings.PathJoin(basePath, d.targetId) !in paths
  {
    if |urls| > 0 {
      var path := Strings.PathJoin(basePath, urls[0].targetId);
      if path in paths {
        FetchSkipsExisting(urls[1..], basePath, paths, fails);
        assert FetchDisks(urls, basePath, paths, fails).downloads == FetchDisks(urls[1..], basePath, paths, fails).downloads;
      } else if !fails(urls[0]) {
        FetchSkipsExisting(urls[1..], basePath, paths + {path}, fails);
        assert FetchDisks(urls, basePath, paths, fails).downloads ==
          [urls[0]] + FetchDisks(urls[1..], basePath, paths + {path}, fails).downloads;
      }
    }
  }

  /** A complete loop leaves a file in place for every disk. */
  lemma {:induction false} FetchCompleteCoversAll(urls: seq<DeviceUrl>, basePath: string, paths: set<string>, fails: DeviceUrl -> bool)
    requires FetchDisks(urls, basePath, paths, fails).complete
    ensures forall i :: 0 <= i < |urls| ==> Strings.PathJoin(basePath, urls[i].targetId) in FetchDisks(urls, basePath, paths, fails).paths
  {
    if |urls| > 0 {
      var path := Strings.PathJoin(basePath, urls[0].targetId);
      var next := if path in paths then paths else paths + {path};
      assert !(path !in paths && fails(urls[0]));
      var rest := FetchDisks(urls[1..], basePath, next, fails);
      assert FetchDisks(urls, basePath, paths, fails).paths == rest.paths;
      FetchCompleteCoversAll(urls[1..], basePath, next, fails);
      FetchAppendsInOrder(urls[1..], basePath, next, fails);
      forall i | 0 < i < |urls|
        ensures Strings.PathJoin(basePath, urls[i].targetId) in rest.paths
      {
        assert urls[i] == urls[1..][i - 1];
      }
    }
  }

  /** When every disk's file exists, the loop downloads nothing and changes no file. */
  lemma {:induction false} FetchAllExisting(urls: seq<DeviceUrl>, basePath: string, paths: set<string>, fails: DeviceUrl -> bool)
    requires forall i :: 0 <= i < |urls| ==> Strings.PathJoin(basePath, urls[i].targetId) in paths
    ensures FetchDisks(urls, basePath, paths, fails) == FetchResult(TargetIds(urls), paths, [], true)
  {
    if |urls| > 0 {
      assert forall i :: 0 < i < |urls| ==> urls[i] == urls[1..][i - 1];
      FetchAllExisting(urls[1..], basePath, paths, fails);
    }
  }

  /** Fetching again after a complete fetch downloads nothing. */
  lemma FetchIdempotent(urls: seq<DeviceUrl>, basePath: string, paths: set<string>, fails: DeviceUrl -> bool)
    requires FetchDisks(urls, basePath, paths, fails).complete
    ensures var again := FetchDisks(urls, basePath, FetchDisks(urls, basePath, paths, fails).paths, fails);
      again.downloads == [] && again.complete && again.paths == FetchDisks(urls, basePath, paths, fails).paths
  {
    FetchCompleteCoversAll(urls, basePath, paths, fails);
    FetchAllExisting(urls, basePath, FetchDisks(urls, basePath, paths, fails).paths, fails);
  }

  /** The download requests of `ws`. */
  function DownloadRequests(ws: seq<DeviceUrl>): (rs: seq<Request>)
    ensures |rs| == |ws| && forall k :: 0 <= k < |ws| ==> rs[k] == Download(ws[k].url)
  {
    if |ws| == 0 then [] else [Download(ws[0].url)] + DownloadRequests(ws[1..])
  }

  /** One step of the disk loop, at position `i`. */
  lemma FetchStep(urls: seq<DeviceUrl>, i: nat, basePath: string, present: set<string>, fails: DeviceUrl -> bool)
    requires i < |urls|
    ensures var d := urls[i];
      var path := Strings.PathJoin(basePath, d.targetId);
      FetchDisks(urls[i..], basePath, present, fails) ==
        if path in present then
          var r := FetchDisks(urls[i + 1..], basePath, present, fails);
          r.(disks := [d.targetId] + r.disks)
        else if fails(d) then
          FetchResult([d.targetId], present, [d], false)
        else
          var r := FetchDisks(urls[i + 1..], basePath, present + {path}, fails);
          r.(disks := [d.targetId] + r.disks, downloads := [d] + r.downloads)
  {
    assert urls[i..][0] == urls[i] && urls[i..][1..] == urls[i + 1..];
  }

  /** Moving one disk id, and possibly one download, from a result into what came before it. */
  lemma AfterShift(ds: seq<string>, ws: seq<DeviceUrl>, id: string, w: seq<DeviceUrl>, r: FetchResult)
    ensures After(ds, ws, r.(disks := [id] + r.disks, downloads := w + r.downloads)) == After(ds + [id], ws + w, r)
  {
    assert ds + ([id] + r.disks) == (ds + [id]) + r.disks;
    assert ws + (w + r.downloads) == (ws + w) + r.downloads;
  }

  /** The loop of `fetch_vm` over the device URLs, on local copies of the state it changes. */
  method DiskLoop(urls: seq<DeviceUrl>, basePath: string, paths: set<string>, fails: DeviceUrl -> bool)
    returns (r: FetchResult)
    ensures r == FetchDisks(urls, basePath, paths, fails)
  {
    var disks: seq<string> := [];
    var present := paths;
    var downloads: seq<DeviceUrl> := [];
    var i := 0;
    while i < |urls|
      invariant 0 <= i <= |urls|
      invariant FetchDisks(urls, basePath, paths, fails) == After(disks, downloads, FetchDisks(urls[i..], basePath, present, fails))
    {
      var d := urls[i];
      FetchStep(urls, i, basePath, present, fails);
      var path := Strings.PathJoin(basePath, d.targetId);
      if path in present {
        AfterShift(disks, downloads, d.targetId, [], FetchDisks(urls[i + 1..], basePath, present, fails));
        disks := disks + [d.targetId];
        i := i + 1;
        continue;
      }
      if fails(d) {
        return FetchResult(disks + [d.targetId], present, downloads + [d], false);
      }
      AfterShift(disks, downloads, d.targetId, [d], FetchDisks(urls[i + 1..], basePath, present + {path}, fails));
      disks := disks + [d.targetId];
      downloads := downloads + [d];
      present := present + {path};
      i := i + 1;
    }
    r := FetchResult(disks, present, downloads, true);
  }

  /** The record `get_all_vms` makes of a VM. */
  function VmInfo(vm: RemoteVm): (info: Dict)
    ensures info.Keys == {"name", "guest_id", "vmPathName", "uuid"}
    ensures info["name"] == VStr(vm.name) && info["guest_id"] == VStr(vm.guestId)
    ensures info["vmPathName"] == VStr(vm.vmPathName) && info["uuid"] == VStr(vm.instanceUuid)
  {
    map["name" := VStr(vm.name), "guest_id" := VStr(vm.guestId),
        "vmPathName" := VStr(vm.vmPathName), "uuid" := VStr(vm.instanceUuid)]
  }

  class VSphereClient {
    const inventory: seq<RemoteVm>
    var requests: seq<Request>

    constructor(inventory: seq<RemoteVm>)
      ensures this.inventory == inventory && requests == []
    {
      this.inventory := inventory;
      requests := [];
    }

    /** `_get_vm_lease`: a second export only when the first lease is not ready. */
    method GetVmLease(vm: RemoteVm) returns (lease: Lease)
      modifies this
      ensures lease == LeaseOf(vm)
      ensures requests == old(requests) + ExportRequests(vm)
    {
      lease := vm.firstExport;
      requests := requests + [Export(vm.instanceUuid)];
      if lease.state != Ready {
        lease := vm.secondExport;
        requests := requests + [Export(vm.instanceUuid)];
      }
    }

    /**
     * `fetch_vm`: the VM is looked up by uuid and named after the remote
     * VM before its lease is taken. With a ready lease, every disk is
     * appended to `vm_disks` and downloaded unless its file exists, and the
     * lease is marked complete after the last one; a lease in error, a
     * lease without device information, or a failing download raises a
     * plain Exception. A uuid VSphere does not know fails on the missing
     * VM's `name`, before anything changes.
     */
    method FetchVm(vm: MigrationVM, fs: FileSystem, fails: DeviceUrl -> bool) returns (out: Outcome)
      modifies this, vm, fs
      ensures Find(inventory, vm.uuid).None? ==>
        out.Fail? && out.error.kind == AttributeError && unchanged(this, vm, fs)
      ensures Find(inventory, vm.uuid).Some? ==>
        var remote := Find(inventory, vm.uuid).value;
        var lease := LeaseOf(remote);
        && vm.name == Some(remote.name)
        && vm.sourceHypervisorType == old(vm.sourceHypervisorType)
        && vm.destinationHypervisorType == old(vm.destinationHypervisorType)
        && fs.commands == old(fs.commands)
        && (lease.info.None? ==>
              out.Fail? && out.error.kind == PlainException && vm.vmDisks == old(vm.vmDisks)
              && fs.paths == old(fs.paths) && requests == old(requests) + ExportRequests(remote))
        && (lease.info.Some? && lease.state == Ready ==>
              var r := FetchDisks(lease.info.value, vm.basePath, old(fs.paths), fails);
              && vm.vmDisks == old(vm.vmDisks) + r.disks
              && fs.paths == r.paths
              && requests == old(requests) + ExportRequests(remote) + DownloadRequests(r.downloads)
                             + (if r.complete then [LeaseComplete] else [])
              && (out.Pass? <==> r.complete)
              && (out.Fail? ==> out.error.kind == PlainException))
        && (lease.info.Some? && lease.state == LeaseError ==>
              out.Fail? && out.error.kind == PlainException && vm.vmDisks == old(vm.vmDisks)
              && fs.paths == old(fs.paths) && requests == old(requests) + ExportRequests(remote))
        && (lease.info.Some? && lease.state != Ready && lease.state != LeaseError ==>
              out.Pass? && vm.vmDisks == old(vm.vmDisks)
              && fs.paths == old(fs.paths) && requests == old(requests) + ExportRequests(remote))
    {
      var found := Find(inventory, vm.uuid);
      if found.None? {
        return Raise(AttributeError, "'NoneType' object has no attribute 'name'");
      }
      var remote := found.value;
      vm.SetName(Some(remote.name));
      var lease := GetVmLease(remote);
      if lease.info.None? {
        return Raise(PlainException, "");
      }
      if lease.state == Ready {
        var r := DiskLoop(lease.info.value, vm.basePath, fs.paths, fails);
        vm.vmDisks := vm.vmDisks + r.disks;
        fs.paths := r.paths;
        requests := requests + DownloadRequests(r.downloads);
        if !r.complete {
          return Raise(PlainException, "");
        }
        requests := requests + [LeaseComplete];
        out := Pass;
      } else if lease.state == LeaseError {
        out := Raise(PlainException, "");
      } else {
        out := Pass;
      }
    }

    /** `get_all_vms`: one record per VM of the inventory, in order. */
    method GetAllVms() returns (infos: seq<Dict>)
      ensures |infos| == |inventory|
      ensures forall i :: 0 <= i < |inventory| ==> infos[i] == VmInfo(inventory[i])
    {
      infos := [];
      var i := 0;
      while i < |inventory|
        invariant 0 <= i <= |inventory|
        invariant |infos| == i
        invariant forall k :: 0 <= k < i ==> infos[k] == VmInfo(inventory[k])
      {
        infos := infos + [VmInfo(inventory[i])];
        i := i + 1;
      }
    }
  }
}
