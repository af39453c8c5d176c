/**
 * The VM views of guts/api/views/vms.py: a source VM is shown trimmed to
 * four attributes, alone or under `"vm"`, and a list of VMs under `"vms"`.
 */
module VmViews {
  import opened PyValues

  /** The attributes a trimmed VM keeps. */
  const TrimmedKeys: set<string> := {"id", "name", "source_id", "description"}

  /**
   * The trimmed record: exactly the four attributes, each the VM's value
   * (`vm.get(key)`), None where the VM has none.
   */
  function Trimmed(vm: Dict): (t: Dict)
    ensures t.Keys == TrimmedKeys
    ensures forall key :: key in TrimmedKeys ==> t[key] == Get(vm, key)
  {
    map["id" := Get(vm, "id"), "name" := Get(vm, "name"), "source_id" := Get(vm, "source_id"),
        "description" := Get(vm, "description")]
  }

  /** Trimming a trimmed record changes nothing. */
  lemma TrimIdempotent(vm: Dict)
    ensures Trimmed(Trimmed(vm)) == Trimmed(vm)
  {
    var t := Trimmed(vm);
    assert forall key :: key in TrimmedKeys ==> Get(t, key) == t[key];
  }

  /** Two VMs that agree on the four kept attributes are shown alike, whatever else they hold. */
  lemma TrimSeesOnlyKeptKeys(vm1: Dict, vm2: Dict)
    requires forall key :: key in TrimmedKeys ==> Get(vm1, key) == Get(vm2, key)
    ensures Trimmed(vm1) == Trimmed(vm2)
  {
  }

  /** `show(request, vm, brief)`: the trimmed record, or with `brief` off that record under `"vm"`. */
  function Show(vm: Dict, brief: bool): (r: Dict)
    ensures brief ==> r == Trimmed(vm)
    ensures !brief ==> r.Keys == {"vm"} && r["vm"] == VDict(Trimmed(vm))
  {
    if brief then Trimmed(vm) else map["vm" := VDict(Trimmed(vm))]
  }

  /** `index(request, vms)`: one brief record per VM, in order, under `"vms"`. */
  function Index(vms: seq<Dict>): (r: Dict)
    ensures r.Keys == {"vms"} && r["vms"].VList?
    ensures |r["vms"].items| == |vms|
    ensures forall i :: 0 <= i < |vms| ==> r["vms"].items[i] == VDict(Show(vms[i], true))
  {
    map["vms" := VList(seq(|vms|, i requires 0 <= i < |vms| => VDict(Show(vms[i], true))))]
  }

  /** The full view of a VM holds, under `"vm"`, what its entry in a list shows. */
  lemma ShowAgreesWithIndex(vms: seq<Dict>, i: nat)
    requires i < |vms|
    ensures Show(vms[i], false)["vm"] == Index(vms)["vms"].items[i]
  {
  }
}
