/**
 * guts/migration/drivers/destinations/openstack.py: the OpenStack
 * destination driver, which uploads converted disks to Glance and creates
 * servers, volumes and networks from them.
 *
 * Every remote call the driver issues (a command line through
 * `utils.execute`, a Glance, Cinder or Nova client call) is appended to the
 * driver's `trace`. Whether a call raises is the oracle `fails`; the failing
 * call is the last one in the trace. Waiting for a volume to become
 * available is the single call `AwaitVolume`.
 */
module OpenStackDestination {
  import opened Wrappers
  import opened PyValues
  import opened Exceptions
  import opened MigrationDrivers
  import opened OpenStackResources
  import Strings

  /** A remote call of the destination driver. */
  datatype Action =
      /** `_upload_image_to_glance(image_name, file_path)`. */
    | Upload(imageName: string, filePath: Value)
      /** `utils.execute('rm', path)`. */
    | RemoveFile(path: Value)
      /** `nova_boot(instance_name, image_name)`. */
    | Boot(instanceName: Value, imageName: string)
    | FindImage(name: string)
      /** `cinder.volumes.create`; the image is the one found under `image`. */
    | NewVolume(displayName: Value, size: int, image: string)
    | AwaitVolume(displayName: Value)
    | RemoveImage(name: string)
    | NewNetwork(params: Dict)

  /** What `self.glance` raises before `do_setup` made the clients. */
  const NoGlance := "'OpenStackDestinationDriver' object has no attribute 'glance'"

  /** What `disk[str(count)]` raises on a disk that is not a dict. */
  const NotADict := "indices must be integers"

  /** The calls an operation issued, in order, and how it ended. */
  datatype Run = Run(actions: seq<Action>, outcome: Outcome)

  /** `int(v)` for the values the volume size can be. */
  function IntOf(v: Value): Option<int>
  {
    match v
    case VInt(i) => Some(i)
    case VBool(b) => Some(if b then 1 else 0)
    case VStr(s) => Strings.ParseInt(s)
    case _ => None
  }

  /** The `glance image-create` command line of `_upload_image_to_glance`. */
  function UploadCommand(cfg: Config, imageName: string, filePath: Value): (cmd: seq<string>)
    ensures |cmd| == 18 && cmd[0] == "glance" && cmd[9] == "image-create"
    ensures cmd[1..9] == AuthOptions(Opt(cfg, "username"), Opt(cfg, "password"), Opt(cfg, "tenant_name"), Opt(cfg, "auth_url"))
    ensures cmd[10] == "--file" && cmd[11] == Render(filePath) && cmd[16] == "--name" && cmd[17] == imageName
  {
    ["glance"] + AuthOptions(Opt(cfg, "username"), Opt(cfg, "password"), Opt(cfg, "tenant_name"), Opt(cfg, "auth_url"))
    + ["image-create", "--file", Render(filePath), "--disk-format", "raw", "--container-format", "bare", "--name", imageName]
  }

  /** The `nova boot` command line of `nova_boot`: always flavor '2'. */
  function BootCommand(cfg: Config, instanceName: Value, imageName: string): (cmd: seq<string>)
    ensures |cmd| == 15 && cmd[0] == "nova" && cmd[9] == "boot"
    ensures cmd[1..9] == AuthOptions(Opt(cfg, "username"), Opt(cfg, "password"), Opt(cfg, "tenant_name"), Opt(cfg, "auth_url"))
    ensures cmd[11] == imageName && cmd[12] == "--flavor" && cmd[13] == "2" && cmd[14] == Render(instanceName)
  {
    ["nova"] + AuthOptions(Opt(cfg, "username"), Opt(cfg, "password"), Opt(cfg, "tenant_name"), Opt(cfg, "auth_url"))
    + ["boot", "--image", imageName, "--flavor", "2", Render(instanceName)]
  }

  /** The command line an action runs through `utils.execute`, if it is one. */
  function CommandLine(cfg: Config, a: Action): (cmd: Option<seq<string>>)
    ensures cmd.Some? <==> a.Upload? || a.RemoveFile? || a.Boot?
    ensures a.Upload? ==> cmd == Some(UploadCommand(cfg, a.imageName, a.filePath))
    ensures a.RemoveFile? ==> cmd == Some(["rm", Render(a.path)])
    ensures a.Boot? ==> cmd == Some(BootCommand(cfg, a.instanceName, a.imageName))
  {
    match a
    case Upload(imageName, filePath) => Some(UploadCommand(cfg, imageName, filePath))
    case RemoveFile(path) => Some(["rm", Render(path)])
    case Boot(instanceName, imageName) => Some(BootCommand(cfg, instanceName, imageName))
    case _ => None
  }

  /** Whether the driver has its clients, after the `if not self._initialized` guard. */
  predicate SetUp(cfg: Config, initialized: bool)
  {
    initialized || SetupOutcome(cfg).Pass?
  }

  // ---------------------------------------------------------------------
  // create_network
  // ---------------------------------------------------------------------

  /**
   * `create_network`: after the setup guard, one Nova call with the
   * parameters. Its failure is re-raised as NetworkCreationFailed, unless
   * the handler's log line finds no 'label' parameter.
   */
  function NetworkRun(cfg: Config, initialized: bool, params: Dict, fails: Action -> bool): (run: Run)
    ensures !SetUp(cfg, initialized) ==> run == Run([], SetupOutcome(cfg))
    ensures SetUp(cfg, initialized) ==> run.actions == [NewNetwork(params)]
    ensures SetUp(cfg, initialized) ==> (run.outcome.Pass? <==> !fails(NewNetwork(params)))
    ensures SetUp(cfg, initialized) && run.outcome.Fail? ==>
      run.outcome.error.kind == (if "label" in params then NetworkCreationFailed else KeyError)
  {
    if !initialized && SetupOutcome(cfg).Fail? then Run([], SetupOutcome(cfg))
    else
      var call := NewNetwork(params);
      if !fails(call) then Run([call], Pass)
      else if "label" !in params then Run([call], Raise(KeyError, "label"))
      else Run([call], Raise(NetworkCreationFailed, "Failed to create network"))
  }

  // ---------------------------------------------------------------------
  // create_volume
  // ---------------------------------------------------------------------

  /** The message every `create_volume` failure carries. */
  function VolumeFailureMessage(imageName: string): string
  {
    "Failed to create volume from an image at destination, image_name: " + imageName
  }

  /** The six calls of a `create_volume` that succeeds. */
  function VolumePlan(imageName: string, path: Value, name: Value, size: int): seq<Action>
  {
    [Upload(imageName, path), RemoveFile(path), FindImage(imageName),
     NewVolume(name, size, imageName), AwaitVolume(name), RemoveImage(imageName)]
  }

  /**
   * The `try` block of `create_volume`: upload the file as an image, remove
   * the file, find the image and demand it is active, create a volume of
   * `int(size)` from it, wait for the volume, delete the image.
   */
  function VolumeSteps(imageName: string, kwargs: Dict, imageActive: bool, fails: Action -> bool): (steps: Run)
    ensures steps.outcome.Pass? ==> |steps.actions| == 6 && steps.actions[5].RemoveImage?
  {
    if "path" !in kwargs then Run([], Raise(KeyError, "path"))
    else
      var upload := Upload(imageName, kwargs["path"]);
      var remove := RemoveFile(kwargs["path"]);
      var find := FindImage(imageName);
      if fails(upload) then Run([upload], Raise(Error, ""))
      else if fails(remove) then Run([upload, remove], Raise(Error, ""))
      else if fails(find) then Run([upload, remove, find], Raise(PlainException, ""))
      else if !imageActive then Run([upload, remove, find], Raise(PlainException, ""))
      else if "name" !in kwargs then Run([upload, remove, find], Raise(KeyError, "name"))
      else if "size" !in kwargs then Run([upload, remove, find], Raise(KeyError, "size"))
      else if IntOf(kwargs["size"]).None? then Run([upload, remove, find], Raise(ValueError, "invalid literal for int()"))
      else
        var create := NewVolume(kwargs["name"], IntOf(kwargs["size"]).value, imageName);
        var wait := AwaitVolume(kwargs["name"]);
        var delete := RemoveImage(imageName);
        if fails(create) then Run([upload, remove, find, create], Raise(PlainException, ""))
        else if fails(wait) then Run([upload, remove, find, create, wait], Raise(PlainException, ""))
        else if fails(delete) then Run([upload, remove, find, create, wait, delete], Raise(PlainException, ""))
        else Run([upload, remove, find, create, wait, delete], Pass)
  }

  /**
   * `create_volume`: the setup guard, `kwargs['mig_ref_id']` read outside
   * the `try`, then the block whose every failure is VolumeCreationFailed.
   */
  function VolumeRun(cfg: Config, initialized: bool, kwargs: Dict, imageActive: bool, fails: Action -> bool): (run: Run)
    ensures !SetUp(cfg, initialized) ==> run == Run([], SetupOutcome(cfg))
    ensures SetUp(cfg, initialized) && "mig_ref_id" !in kwargs ==> run == Run([], Raise(KeyError, "mig_ref_id"))
    ensures SetUp(cfg, initialized) && "mig_ref_id" in kwargs && run.outcome.Fail? ==>
      run.outcome == Raise(VolumeCreationFailed, VolumeFailureMessage(Render(kwargs["mig_ref_id"])))
    ensures run.outcome.Pass? ==> |run.actions| == 6 && run.actions[5].RemoveImage?
  {
    if !initialized && SetupOutcome(cfg).Fail? then Run([], SetupOutcome(cfg))
    else if "mig_ref_id" !in kwargs then Run([], Raise(KeyError, "mig_ref_id"))
    else
      var imageName := Render(kwargs["mig_ref_id"]);
      var steps := VolumeSteps(imageName, kwargs, imageActive, fails);
      Run(steps.actions, if steps.outcome.Fail? then Raise(VolumeCreationFailed, VolumeFailureMessage(imageName)) else Pass)
  }

  /**
   * Past the setup guard and with every keyword present, `create_volume`
   * issues a prefix of its six-call plan, and succeeds exactly when the
   * image is active and no call of the plan raises; the image is deleted
   * last, after the volume is available.
   */
  lemma VolumeRunFollowsPlan(cfg: Config, initialized: bool, kwargs: Dict, imageActive: bool, fails: Action -> bool)
    requires SetUp(cfg, initialized)
    requires "mig_ref_id" in kwargs && "path" in kwargs && "name" in kwargs && "size" in kwargs
    requires IntOf(kwargs["size"]).Some?
    ensures var run := VolumeRun(cfg, initialized, kwargs, imageActive, fails);
      var plan := VolumePlan(Render(kwargs["mig_ref_id"]), kwargs["path"], kwargs["name"], IntOf(kwargs["size"]).value);
      && run.actions <= plan
      && (run.outcome.Pass? <==> imageActive && forall k :: 0 <= k < |plan| ==> !fails(plan[k]))
      && (run.outcome.Pass? ==> run.actions == plan)
  {
    VolumeRunIsSteps(cfg, initialized, kwargs, imageActive, fails);
    VolumeStepsFollowPlan(Render(kwargs["mig_ref_id"]), kwargs, imageActive, fails);
  }

  /** Past the setup guard, `create_volume` issues the calls of its `try` block and succeeds with it. */
  lemma VolumeRunIsSteps(cfg: Config, initialized: bool, kwargs: Dict, imageActive: bool, fails: Action -> bool)
    requires SetUp(cfg, initialized) && "mig_ref_id" in kwargs
    ensures var run := VolumeRun(cfg, initialized, kwargs, imageActive, fails);
      var steps := VolumeSteps(Render(kwargs["mig_ref_id"]), kwargs, imageActive, fails);
      run.actions == steps.actions && (run.outcome.Pass? <==> steps.outcome.Pass?)
  {
    var imageName := Render(kwargs["mig_ref_id"]);
    var steps := VolumeSteps(imageName, kwargs, imageActive, fails);
    assert VolumeRun(cfg, initialized, kwargs, imageActive, fails) ==
           Run(steps.actions, if steps.outcome.Fail? then Raise(VolumeCreationFailed, VolumeFailureMessage(imageName)) else Pass);
  }

  /** The `try` block of `create_volume` issues a prefix of the plan, all of it exactly when it succeeds. */
  lemma VolumeStepsFollowPlan(imageName: string, kwargs: Dict, imageActive: bool, fails: Action -> bool)
    requires "path" in kwargs && "name" in kwargs && "size" in kwargs
    requires IntOf(kwargs["size"]).Some?
    ensures var steps := VolumeSteps(imageName, kwargs, imageActive, fails);
      var plan := VolumePlan(imageName, kwargs["path"], kwargs["name"], IntOf(kwargs["size"]).value);
      && steps.actions <= plan
      && (steps.outcome.Pass? <==> imageActive && forall k :: 0 <= k < |plan| ==> !fails(plan[k]))
      && (steps.outcome.Pass? ==> steps.actions == plan)
  {
    var plan := VolumePlan(imageName, kwargs["path"], kwargs["name"], IntOf(kwargs["size"]).value);
    var steps := VolumeSteps(imageName, kwargs, imageActive, fails);
    if fails(plan[0]) {
      assert steps.actions == plan[..1];
    } else if fails(plan[1]) {
      assert steps.actions == plan[..2];
    } else if fails(plan[2]) || !imageActive {
      assert steps.actions == plan[..3];
    } else if fails(plan[3]) {
      assert steps.actions == plan[..4];
    } else if fails(plan[4]) {
      assert steps.actions == plan[..5];
    } else {
      assert steps.actions == plan;
      if !fails(plan[5]) {
        forall k | 0 <= k < |plan| ensures !fails(plan[k]) {}
      }
    }
  }

  // ---------------------------------------------------------------------
  // create_instance
  // ---------------------------------------------------------------------

  /** `"%s_%s" % (mig_ref, count)`: the image name of a disk. */
  function ImageName(migRef: string, count: nat): string
  {
    migRef + "_" + Strings.IntToString(count)
  }

  /** Different disks of a migration are uploaded under different image names. */
  lemma ImageNamesDistinct(migRef: string, i: nat, j: nat)
    requires ImageName(migRef, i) == ImageName(migRef, j)
    ensures i == j
  {
    var prefix := migRef + "_";
    assert ImageName(migRef, i)[|prefix|..] == Strings.IntToString(i);
    assert ImageName(migRef, j)[|prefix|..] == Strings.IntToString(j);
    Strings.IntRoundTrip(i);
    Strings.IntRoundTrip(j);
  }

  /** The volume name of every disk after the first. */
  function VolumeName(name: Value): Value
  {
    VStr(Render(name) + "_vol")
  }

  /**
   * One iteration of the `create_instance` loop, for the disk at position
   * `count`: upload `disk[str(count)]`; the first disk boots the server,
   * every other one becomes an 8 GB volume. The method never runs the
   * setup guard, so without an earlier setup `self.glance` is missing.
   */
  function DiskStep(initialized: bool, kwargs: Dict, migRef: string, count: nat, disk: Value, fails: Action -> bool): Run
  {
    var imageName := ImageName(migRef, count);
    var key := Strings.IntToString(count);
    if !disk.VDict? then Run([], Raise(TypeError, NotADict))
    else if key !in disk.entries then Run([], Raise(KeyError, key))
    else
      var upload := Upload(imageName, disk.entries[key]);
      if fails(upload) then Run([upload], Raise(Error, ""))
      else if count == 0 then
        if "name" !in kwargs then Run([upload], Raise(KeyError, "name"))
        else
          var boot := Boot(kwargs["name"], imageName);
          Run([upload, boot], if fails(boot) then Raise(ProcessExecutionError, "") else Pass)
      else if !initialized then
        Run([upload], Raise(AttributeError, NoGlance))
      else
        var find := FindImage(imageName);
        if fails(find) then Run([upload, find], Raise(PlainException, ""))
        else if "name" !in kwargs then Run([upload, find], Raise(KeyError, "name"))
        else
          var create := NewVolume(VolumeName(kwargs["name"]), 8, imageName);
          Run([upload, find, create], if fails(create) then Raise(PlainException, "") else Pass)
  }

  /** The loop over `disks`, stopping at the first disk that raises. */
  function DisksRun(initialized: bool, kwargs: Dict, migRef: string, disks: seq<Value>, fails: Action -> bool): Run
    decreases |disks|
  {
    if disks == [] then Run([], Pass)
    else
      var prev := DisksRun(initialized, kwargs, migRef, disks[..|disks| - 1], fails);
      if prev.outcome.Fail? then prev
      else
        var step := DiskStep(initialized, kwargs, migRef, |disks| - 1, disks[|disks| - 1], fails);
        Run(prev.actions + step.actions, step.outcome)
  }

  /** `create_instance`: `disks` and `mig_ref_id` are read before the loop. */
  function InstanceRun(initialized: bool, kwargs: Dict, fails: Action -> bool): (r: Run)
    ensures "disks" !in kwargs ==> r == Run([], Raise(KeyError, "disks"))
    ensures "disks" in kwargs && "mig_ref_id" !in kwargs ==> r == Run([], Raise(KeyError, "mig_ref_id"))
    ensures "disks" in kwargs && "mig_ref_id" in kwargs && kwargs["disks"] == VList([]) ==> r == Run([], Pass)
    ensures r.actions == [] ==> r.outcome.Fail? || ("disks" in kwargs && kwargs["disks"] == VList([]))
  {
    if "disks" !in kwargs then Run([], Raise(KeyError, "disks"))
    else if "mig_ref_id" !in kwargs then Run([], Raise(KeyError, "mig_ref_id"))
    else if !kwargs["disks"].VList? then Run([], Raise(TypeError, "disks is not a list"))
    else DisksRun(initialized, kwargs, Render(kwargs["mig_ref_id"]), kwargs["disks"].items, fails)
  }

  /** Once a disk raises, the later disks are not processed. */
  lemma {:induction false} DisksRunStops(initialized: bool, kwargs: Dict, migRef: string, disks: seq<Value>, n: nat, fails: Action -> bool)
    requires n <= |disks|
    requires DisksRun(initialized, kwargs, migRef, disks[..n], fails).outcome.Fail?
    ensures DisksRun(initialized, kwargs, migRef, disks, fails) == DisksRun(initialized, kwargs, migRef, disks[..n], fails)
    decreases |disks|
  {
    if n < |disks| {
      var init := disks[..|disks| - 1];
      assert init[..n] == disks[..n];
      DisksRunStops(initialized, kwargs, migRef, init, n, fails);
    } else {
      assert disks[..n] == disks;
    }
  }

  /** One more disk after a prefix that raised nothing: that disk's step is appended. */
  lemma DisksRunExtend(initialized: bool, kwargs: Dict, migRef: string, disks: seq<Value>, count: nat, fails: Action -> bool)
    requires count < |disks|
    requires DisksRun(initialized, kwargs, migRef, disks[..count], fails).outcome.Pass?
    ensures var step := DiskStep(initialized, kwargs, migRef, count, disks[count], fails);
      DisksRun(initialized, kwargs, migRef, disks[..count + 1], fails)
        == Run(DisksRun(initialized, kwargs, migRef, disks[..count], fails).actions + step.actions, step.outcome)
  {
    var prefix := disks[..count + 1];
    assert prefix[..count] == disks[..count] && prefix[count] == disks[count];
  }

  /** Every disk is a dict holding its path under the key `str(position)`. */
  predicate DisksReady(disks: seq<Value>)
  {
    forall i :: 0 <= i < |disks| ==> disks[i].VDict? && Strings.IntToString(i) in disks[i].entries
  }

  /** The path of the disk at position `i`. */
  function DiskPath(disks: seq<Value>, i: nat): Value
    requires i < |disks| && DisksReady(disks)
  {
    disks[i].entries[Strings.IntToString(i)]
  }

  /**
   * `actions` are the calls of the disks in order: disk 0 is uploaded as
   * `<mig_ref>_0` and booted as the server `name`; every later disk i is
   * uploaded as `<mig_ref>_i`, found and made into the volume `<name>_vol`
   * of size 8.
   */
  predicate DiskCalls(actions: seq<Action>, kwargs: Dict, migRef: string, disks: seq<Value>)
    requires DisksReady(disks) && "name" in kwargs
  {
    && |actions| == (if disks == [] then 0 else 3 * |disks| - 1)
    && (disks != [] ==>
          && actions[0] == Upload(ImageName(migRef, 0), DiskPath(disks, 0))
          && actions[1] == Boot(kwargs["name"], ImageName(migRef, 0)))
    && (forall i :: 1 <= i < |disks| ==>
          && actions[3 * i - 1] == Upload(ImageName(migRef, i), DiskPath(disks, i))
          && actions[3 * i] == FindImage(ImageName(migRef, i))
          && actions[3 * i + 1] == NewVolume(VolumeName(kwargs["name"]), 8, ImageName(migRef, i)))
  }

  /**
   * When nothing raises and every disk is ready, `create_instance` succeeds
   * and makes exactly the calls of DiskCalls.
   */
  lemma {:induction false} DisksRunSucceeds(kwargs: Dict, migRef: string, disks: seq<Value>, fails: Action -> bool)
    requires DisksReady(disks) && "name" in kwargs
    requires forall a :: !fails(a)
    ensures var run := DisksRun(true, kwargs, migRef, disks, fails);
      run.outcome.Pass? && DiskCalls(run.actions, kwargs, migRef, disks)
    decreases |disks|
  {
    if disks != [] {
      var init := disks[..|disks| - 1];
      var last := |disks| - 1;
      DisksReadyPrefix(disks);
      DisksRunSucceeds(kwargs, migRef, init, fails);
      DiskStepSucceeds(kwargs, migRef, last, disks[last], fails);
      DisksRunSnoc(kwargs, migRef, disks, fails);
      DiskCallsSnoc(DisksRun(true, kwargs, migRef, init, fails).actions,
                    DiskStep(true, kwargs, migRef, last, disks[last], fails).actions, kwargs, migRef, disks);
    }
  }

  /** The calls of a prefix of the disks followed by the last disk's calls are the calls of all of them. */
  lemma DiskCallsSnoc(prev: seq<Action>, step: seq<Action>, kwargs: Dict, migRef: string, disks: seq<Value>)
    requires disks != [] && DisksReady(disks) && "name" in kwargs
    requires DisksReady(disks[..|disks| - 1]) && DiskCalls(prev, kwargs, migRef, disks[..|disks| - 1])
    requires var last := |disks| - 1;
      var upload := Upload(ImageName(migRef, last), DiskPath(disks, last));
      step == if last == 0 then [upload, Boot(kwargs["name"], ImageName(migRef, 0))]
              else [upload, FindImage(ImageName(migRef, last)),
                    NewVolume(VolumeName(kwargs["name"]), 8, ImageName(migRef, last))]
    ensures DiskCalls(prev + step, kwargs, migRef, disks)
  {
    var init := disks[..|disks| - 1];
    var last := |disks| - 1;
    var run := prev + step;
    forall i | 0 <= i < last
      ensures DiskPath(init, i) == DiskPath(disks, i)
    {
      assert init[i] == disks[i];
    }
    if last == 0 {
      assert Strings.IntToString(0) == "0";
    } else {
      assert run[0] == prev[0] && run[1] == prev[1];
      forall i | 1 <= i < |disks|
        ensures && run[3 * i - 1] == Upload(ImageName(migRef, i), DiskPath(disks, i))
                && run[3 * i] == FindImage(ImageName(migRef, i))
                && run[3 * i + 1] == NewVolume(VolumeName(kwargs["name"]), 8, ImageName(migRef, i))
      {
        if i < last {
          assert run[3 * i - 1] == prev[3 * i - 1] && run[3 * i] == prev[3 * i] && run[3 * i + 1] == prev[3 * i + 1];
        } else {
          assert run[3 * i - 1] == step[0] && run[3 * i] == step[1] && run[3 * i + 1] == step[2];
        }
      }
    }
  }

  /** A ready disk uploads its path under its image name, then boots (disk 0) or becomes a volume. */
  lemma DiskStepSucceeds(kwargs: Dict, migRef: string, count: nat, disk: Value, fails: Action -> bool)
    requires disk.VDict? && Strings.IntToString(count) in disk.entries && "name" in kwargs
    requires forall a :: !fails(a)
    ensures var step := DiskStep(true, kwargs, migRef, count, disk, fails);
      var upload := Upload(ImageName(migRef, count), disk.entries[Strings.IntToString(count)]);
      && step.outcome.Pass?
      && step.actions == if count == 0 then [upload, Boot(kwargs["name"], ImageName(migRef, 0))]
                         else [upload, FindImage(ImageName(migRef, count)),
                               NewVolume(VolumeName(kwargs["name"]), 8, ImageName(migRef, count))]
  {
  }

  /** A prefix of ready disks is ready. */
  lemma DisksReadyPrefix(disks: seq<Value>)
    requires disks != [] && DisksReady(disks)
    ensures DisksReady(disks[..|disks| - 1])
  {
    var init := disks[..|disks| - 1];
    forall i | 0 <= i < |init| ensures init[i].VDict? && Strings.IntToString(i) in init[i].entries {
      assert init[i] == disks[i];
    }
  }

  /** After a prefix that raised nothing, the last disk's calls are appended. */
  lemma DisksRunSnoc(kwargs: Dict, migRef: string, disks: seq<Value>, fails: Action -> bool)
    requires disks != []
    requires DisksRun(true, kwargs, migRef, disks[..|disks| - 1], fails).outcome.Pass?
    ensures var step := DiskStep(true, kwargs, migRef, |disks| - 1, disks[|disks| - 1], fails);
      DisksRun(true, kwargs, migRef, disks, fails)
        == Run(DisksRun(true, kwargs, migRef, disks[..|disks| - 1], fails).actions + step.actions, step.outcome)
  {
  }

  /** The first disk is uploaded as `<mig_ref>_0` and boots the server, whether or not the driver is set up. */
  lemma FirstDiskBoots(initialized: bool, kwargs: Dict, migRef: string, disk: Value, fails: Action -> bool)
    requires disk.VDict? && "0" in disk.entries && "name" in kwargs
    requires !fails(Upload(ImageName(migRef, 0), disk.entries["0"])) && !fails(Boot(kwargs["name"], ImageName(migRef, 0)))
    ensures DisksRun(initialized, kwargs, migRef, [disk], fails)
         == Run([Upload(ImageName(migRef, 0), disk.entries["0"]), Boot(kwargs["name"], ImageName(migRef, 0))], Pass)
  {
    assert Strings.IntToString(0) == "0";
    var step := DiskStep(initialized, kwargs, migRef, 0, disk, fails);
    assert step == Run([Upload(ImageName(migRef, 0), disk.entries["0"]), Boot(kwargs["name"], ImageName(migRef, 0))], Pass);
    assert [disk][..0] == [];
    assert DisksRun(initialized, kwargs, migRef, [disk], fails) == Run([] + step.actions, step.outcome);
  }

  /**
   * Without an earlier setup, an instance of two or more disks boots its
   * server from disk 0 and then fails at disk 1, before any volume exists.
   */
  lemma UninitialisedStopsAtSecondDisk(kwargs: Dict, migRef: string, disks: seq<Value>, fails: Action -> bool)
    requires |disks| >= 2 && DisksReady(disks) && "name" in kwargs
    requires forall a :: !fails(a)
    ensures var run := DisksRun(false, kwargs, migRef, disks, fails);
      && run.outcome.Fail? && run.outcome.error.kind == AttributeError
      && run.actions == [Upload(ImageName(migRef, 0), DiskPath(disks, 0)),
                         Boot(kwargs["name"], ImageName(migRef, 0)),
                         Upload(ImageName(migRef, 1), DiskPath(disks, 1))]
  {
    var two := disks[..2];
    assert two[..1] == [disks[0]] && two[1] == disks[1];
    assert Strings.IntToString(0) == "0";
    FirstDiskBoots(false, kwargs, migRef, disks[0], fails);
    assert DisksRun(false, kwargs, migRef, two, fails).outcome.Fail?;
    DisksRunStops(false, kwargs, migRef, disks, 2, fails);
  }

  // ---------------------------------------------------------------------
  // OpenStackDestinationDriver
  // ---------------------------------------------------------------------

  class OpenStackDestinationDriver {
    const driver: MigrationDriver
    const configuration: Config
    /** Whether `do_setup` made the clients (`self._initialized`). */
    var initialized: bool
    /** The remote calls issued so far. */
    var trace: seq<Action>

    constructor(driver: MigrationDriver, configuration: Config)
      ensures this.driver == driver && this.configuration == configuration
      ensures !initialized && trace == []
    {
      this.driver := driver;
      this.configuration := configuration;
      initialized := false;
      trace := [];
    }

    /** `do_setup`: the clients are made for keystone 'v2' and 'v3'. */
    method DoSetup() returns (out: Outcome)
      modifies this
      ensures out == SetupOutcome(configuration)
      ensures initialized == (old(initialized) || out.Pass?) && trace == old(trace)
    {
      out := SetupOutcome(configuration);
      if out.Pass? {
        initialized := true;
      }
    }

    /** `create_network`. */
    method CreateNetwork(params: Dict, fails: Action -> bool) returns (out: Outcome)
      modifies this
      ensures var run := NetworkRun(configuration, old(initialized), params, fails);
        out == run.outcome && trace == old(trace) + run.actions
      ensures initialized == SetUp(configuration, old(initialized))
    {
      if !initialized {
        var setup := DoSetup();
        if setup.Fail? {
          return setup;
        }
      }
      var call := NewNetwork(params);
      trace := trace + [call];
      out := Pass;
      if fails(call) {
        if "label" !in params {
          out := Raise(KeyError, "label");
        } else {
          out := Raise(NetworkCreationFailed, "Failed to create network");
        }
      }
    }

    /** `create_volume`. */
    method CreateVolume(kwargs: Dict, imageActive: bool, fails: Action -> bool) returns (out: Outcome)
      modifies this
      ensures var run := VolumeRun(configuration, old(initialized), kwargs, imageActive, fails);
        out == run.outcome && trace == old(trace) + run.actions
      ensures initialized == SetUp(configuration, old(initialized))
    {
      if !initialized {
        var setup := DoSetup();
        if setup.Fail? {
          return setup;
        }
      }
      if "mig_ref_id" !in kwargs {
        return Raise(KeyError, "mig_ref_id");
      }
      var imageName := Render(kwargs["mig_ref_id"]);
      var steps := VolumeSteps(imageName, kwargs, imageActive, fails);
      trace := trace + steps.actions;
      out := if steps.outcome.Fail? then Raise(VolumeCreationFailed, VolumeFailureMessage(imageName)) else Pass;
    }

    /** `create_instance`: the loop over the disks. */
    method CreateInstance(kwargs: Dict, fails: Action -> bool) returns (out: Outcome)
      modifies this
      ensures var run := InstanceRun(initialized, kwargs, fails);
        out == run.outcome && trace == old(trace) + run.actions
      ensures initialized == old(initialized)
    {
      if "disks" !in kwargs {
        return Raise(KeyError, "disks");
      }
      if "mig_ref_id" !in kwargs {
        return Raise(KeyError, "mig_ref_id");
      }
      if !kwargs["disks"].VList? {
        return Raise(TypeError, "disks is not a list");
      }
      out := ProcessDisks(kwargs, Render(kwargs["mig_ref_id"]), kwargs["disks"].items, fails);
    }

    /** The `for disk in disks` loop of `create_instance`. */
    method ProcessDisks(kwargs: Dict, migRef: string, disks: seq<Value>, fails: Action -> bool) returns (out: Outcome)
      modifies this
      ensures var run := DisksRun(initialized, kwargs, migRef, disks, fails);
        out == run.outcome && trace == old(trace) + run.actions
      ensures initialized == old(initialized)
    {
      var ready := initialized;
      var done: seq<Action> := [];
      var count := 0;
      while count < |disks|
        invariant 0 <= count <= |disks|
        invariant DisksRun(ready, kwargs, migRef, disks[..count], fails) == Run(done, Pass)
        invariant initialized == ready && trace == old(trace)
      {
        DisksRunExtend(ready, kwargs, migRef, disks, count, fails);
        var step := DiskStep(ready, kwargs, migRef, count, disks[count], fails);
        done := done + step.actions;
        if step.outcome.Fail? {
          DisksRunStops(ready, kwargs, migRef, disks, count + 1, fails);
          trace := trace + done;
          return step.outcome;
        }
        count := count + 1;
      }
      assert disks[..count] == disks;
      trace := trace + done;
      out := Pass;
    }
  }

  /** `OpenStackDestinationDriver.__init__`: the base part, then the option registration on the configuration. */
  method NewOpenStackDestinationDriver(host: Value, configuration: Option<Config>) returns (r: Result<OpenStackDestinationDriver>)
    ensures r.Ok? <==> configuration.Some?
    ensures r.Err? ==> r.error.kind == AttributeError
    ensures r.Ok? ==> fresh(r.value) && r.value.configuration == configuration.value
                      && !r.value.initialized && r.value.trace == []
  {
    var base := new MigrationDriver(host, configuration);
    if configuration.None? {
      return Err(Exc(AttributeError, "'NoneType' object has no attribute 'append_config_values'"));
    }
    var driver := new OpenStackDestinationDriver(base, configuration.value);
    r := Ok(driver);
  }
}
