/**
 * guts/migration/common/vm.py: the local working copy of a VM under
 * migration, its directory under GUTS_MIGRATION_DIR, the paths of its
 * source and converted disks, and the skip-if-exists conversion.
 *
 * The local filesystem is a `FileSystem` object: the set of paths that
 * exist and the commands run against it. `qemu-img` either produces its
 * output file or not (`converts`); its exit status is ignored, as in the
 * source.
 */
module MigrationVm {
  import opened Wrappers
  import opened PyValues
  import opened Exceptions
  import Strings

  const GutsMigrationDir: string := "/tmp/guts"

  /**
   * `os.path.join(GUTS_MIGRATION_DIR, uuid)`, written out for a directory
   * that does not end in `/` (BasePathIsJoin).
   */
  function BasePath(uuid: string): string
  {
    if uuid != [] && uuid[0] == '/' then uuid else GutsMigrationDir + "/" + uuid
  }

  /** BasePath is the join of GUTS_MIGRATION_DIR and the uuid. */
  lemma BasePathIsJoin(uuid: string)
    ensures BasePath(uuid) == Strings.PathJoin(GutsMigrationDir, uuid)
  {
    var dir := GutsMigrationDir;
    assert dir[|dir| - 1] == 's';
  }

  /** A VM's directory sits right under GUTS_MIGRATION_DIR unless its uuid is an absolute path. */
  lemma BasePathUnderMigrationDir(uuid: string)
    requires uuid == [] || uuid[0] != '/'
    ensures Strings.PathJoin(GutsMigrationDir, uuid) == "/tmp/guts/" + uuid
  {
    BasePathIsJoin(uuid);
  }

  class FileSystem {
    var paths: set<string>
    /** The external commands run so far, in order. */
    var commands: seq<seq<string>>

    constructor(paths: set<string>)
      ensures this.paths == paths && commands == []
    {
      this.paths := paths;
      commands := [];
    }

    /** Makes the directory `path` unless it exists already. */
    method MakeDirectory(path: string)
      modifies this
      ensures paths == old(paths) + {path} && commands == old(commands)
    {
      if path !in paths {
        paths := paths + {path};
      }
    }
  }

  /** The `qemu-img` command line that converts `source` into `target`. */
  function ConvertCommand(source: string, target: string): seq<string>
  {
    ["qemu-img", "convert", source, "-ocompat=0.10", "-Oqcow2", target]
  }

  /** The Glance metadata of the converted image of a VM named `name`. */
  function ImageMeta(name: Option<string>): (meta: Dict)
    ensures meta.Keys == {"name", "disk_format", "container_format"}
    ensures meta["name"] == NameOf(name)
    ensures meta["disk_format"] == VStr("qcow2") && meta["container_format"] == VStr("bare")
  {
    map["name" := NameOf(name), "disk_format" := VStr("qcow2"), "container_format" := VStr("bare")]
  }

  /** The value the `name` property yields. */
  function NameOf(name: Option<string>): Value
  {
    if name.Some? then VStr(name.value) else VNone
  }

  /** The converted image's path, `<base_path>/<name>.qcow2`, or None while the name is unset or empty. */
  function DiskPath(basePath: string, name: Option<string>): (p: Option<string>)
    ensures p.None? <==> name.None? || name.value == ""
    ensures p.Some? ==> p.value == Strings.PathJoin(basePath, name.value + ".qcow2")
  {
    if name.None? || name.value == "" then None
    else Some(Strings.PathJoin(basePath, name.value + ".qcow2"))
  }

  class MigrationVM {
    const uuid: string
    /** `base_path`: the VM's directory. */
    const basePath: string := BasePath(uuid)
    /** `_name`, read and written through the `name` property. */
    var name: Option<string>
    var sourceHypervisorType: Option<string>
    var destinationHypervisorType: Option<string>
    var vmDisks: seq<string>

    /** The VM's directory is made unless it exists already. */
    constructor(uuid: string, fs: FileSystem)
      modifies fs
      ensures this.uuid == uuid && basePath == BasePath(uuid)
      ensures name == None && sourceHypervisorType == None && destinationHypervisorType == None
      ensures vmDisks == []
      ensures fs.paths == old(fs.paths) + {basePath} && fs.commands == old(fs.commands)
    {
      this.uuid := uuid;
      name := None;
      sourceHypervisorType := None;
      destinationHypervisorType := None;
      vmDisks := [];
      new;
      fs.MakeDirectory(basePath);
    }

    /** The `name` setter. */
    method SetName(newName: Option<string>)
      modifies this
      ensures name == newName
      ensures vmDisks == old(vmDisks) && sourceHypervisorType == old(sourceHypervisorType)
      ensures destinationHypervisorType == old(destinationHypervisorType)
    {
      name := newName;
    }

    /** `_prepare_image_meta`. */
    function PrepareImageMeta(): (meta: Dict)
      reads this
      ensures meta.Keys == {"name", "disk_format", "container_format"}
      ensures meta["name"] == NameOf(name)
      ensures meta["disk_format"] == VStr("qcow2") && meta["container_format"] == VStr("bare")
    {
      ImageMeta(name)
    }

    /** `target_disk_path`. */
    function TargetDiskPath(): (p: Option<string>)
      reads this
      ensures p.None? <==> name.None? || name.value == ""
      ensures p.Some? ==> p.value == Strings.PathJoin(basePath, name.value + ".qcow2")
    {
      DiskPath(basePath, name)
    }

    /** `source_disk_path`: the first fetched disk under the VM's directory, or None. */
    function SourceDiskPath(): (p: Option<string>)
      reads this
      ensures p.None? <==> vmDisks == []
      ensures p.Some? ==> p.value == Strings.PathJoin(basePath, vmDisks[0])
    {
      if vmDisks == [] then None else Some(Strings.PathJoin(basePath, vmDisks[0]))
    }

    /**
     * `convert`: nothing is run when the converted image exists already;
     * otherwise one `qemu-img` command converts the source disk into it.
     * A missing path fails in `os.path.exists` or in starting the command
     * with TypeError.
     */
    method Convert(fs: FileSystem, converts: bool) returns (out: Outcome)
      modifies fs
      ensures TargetDiskPath().None? ==> out.Fail? && out.error.kind == TypeError && unchanged(fs)
      ensures TargetDiskPath().Some? && TargetDiskPath().value in old(fs.paths) ==> out.Pass? && unchanged(fs)
      ensures TargetDiskPath().Some? && TargetDiskPath().value !in old(fs.paths) && SourceDiskPath().None? ==>
        out.Fail? && out.error.kind == TypeError && unchanged(fs)
      ensures TargetDiskPath().Some? && TargetDiskPath().value !in old(fs.paths) && SourceDiskPath().Some? ==>
        && out.Pass?
        && fs.commands == old(fs.commands) + [ConvertCommand(SourceDiskPath().value, TargetDiskPath().value)]
        && fs.paths == old(fs.paths) + (if converts then {TargetDiskPath().value} else {})
    {
      var target := TargetDiskPath();
      if target.None? {
        return Raise(TypeError, "coercing to Unicode: need string or buffer, NoneType found");
      }
      if target.value in fs.paths {
        return Pass;
      }
      var source := SourceDiskPath();
      if source.None? {
        return Raise(TypeError, "execv() arg 2 must contain only strings");
      }
      fs.commands := fs.commands + [ConvertCommand(source.value, target.value)];
      if converts {
        fs.paths := fs.paths + {target.value};
      }
      out := Pass;
    }
  }

  /** `create_migration_vm_instance`. */
  method CreateMigrationVmInstance(uuid: string, fs: FileSystem) returns (vm: MigrationVM)
    modifies fs
    ensures fresh(vm) && vm.uuid == uuid && vm.name == None && vm.vmDisks == []
    ensures vm.basePath == BasePath(uuid) && vm.basePath in fs.paths
  {
    vm := new MigrationVM(uuid, fs);
  }

  /** A successful conversion makes a second one a no-op: two calls run `qemu-img` at most once. */
  method ConvertTwice(vm: MigrationVM, fs: FileSystem) returns (first: Outcome, second: Outcome)
    modifies fs
    ensures first.Pass? ==> second.Pass?
    ensures |fs.commands| <= |old(fs.commands)| + 1
  {
    first := vm.Convert(fs, true);
    second := vm.Convert(fs, true);
  }
}
