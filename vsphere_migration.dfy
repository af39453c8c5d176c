/**
 * guts/migration/drivers/vsphere/migration.py: a complete VSphere
 * migration run — fetch the VM, convert its disk, upload the image, boot a
 * server — with the migration record moved through its events, and a
 * catch-all that marks the record failed.
 *
 * Fetching (the VSphere client's `fetch_vm`) and converting (`MigrationVM.convert`)
 * are single actions here; whether an action raises is decided by `fails`.
 */
module VsphereMigration {
  import opened Wrappers
  import opened PyValues
  import opened Exceptions
  import opened Db
  import opened MigrationVm
  import opened MigrationCommon

  /** The update `__call__` issues for each event. */
  function EventUpdate(id: Value, event: string): Action
  {
    MigrationUpdated(id, EventParams(event))
  }

  /** The actions from `boot_image` on, when nothing raises. */
  function FromBoot(id: Value, name: string, imageId: string): seq<Action>
  {
    [EventUpdate(id, "BOOTING_IMAGES"), ServerBooted(ServerInfo(VStr(name), imageId, VInt(DefaultFlavor), DefaultNetworkId))] +
    [MigrationUpdated(id, StatusEventParams("COMPLETED", "COMPLETED"))]
  }

  /** The actions from `push_to_glance` on, when nothing raises. */
  function FromPush(id: Value, basePath: string, name: string, imageId: string): seq<Action>
  {
    [EventUpdate(id, "PUSHING_TO_GLANCE"), ImageCreated(ImageMeta(Some(name)), DiskPath(basePath, Some(name)))] +
    FromBoot(id, name, imageId)
  }

  /** The actions from `convert_vm` on, when nothing raises. */
  function FromConvert(id: Value, uuid: string, basePath: string, name: string, imageId: string): seq<Action>
  {
    [EventUpdate(id, "CONVERTING_IMAGES"), VmConverted(uuid)] + FromPush(id, basePath, name, imageId)
  }

  /** The actions from `fetch_vm` on, when nothing raises. */
  function FromFetch(id: Value, uuid: string, basePath: string, name: string, imageId: string): seq<Action>
  {
    [EventUpdate(id, "FETCHING_IMAGES"), VmFetched(uuid)] + FromConvert(id, uuid, basePath, name, imageId)
  }

  /**
   * The actions of a run in which nothing raises, for the VM `uuid` in
   * `basePath` whose source name is `name`, when Glance names the image
   * `imageId`.
   */
  function RunSteps(id: Value, uuid: string, basePath: string, name: string, imageId: string): seq<Action>
  {
    [MigrationUpdated(id, StatusEventParams("IN-PROGRESS", "INIT"))] + FromFetch(id, uuid, basePath, name, imageId)
  }

  /** The order of a run: INIT, fetch, convert, upload, boot, COMPLETED, each remote step after its event. */
  lemma RunStepsOrder(id: Value, uuid: string, basePath: string, name: string, imageId: string)
    ensures RunSteps(id, uuid, basePath, name, imageId) ==
      [ MigrationUpdated(id, StatusEventParams("IN-PROGRESS", "INIT")),
        MigrationUpdated(id, EventParams("FETCHING_IMAGES")), VmFetched(uuid),
        MigrationUpdated(id, EventParams("CONVERTING_IMAGES")), VmConverted(uuid),
        MigrationUpdated(id, EventParams("PUSHING_TO_GLANCE")),
        ImageCreated(ImageMeta(Some(name)), DiskPath(basePath, Some(name))),
        MigrationUpdated(id, EventParams("BOOTING_IMAGES")),
        ServerBooted(ServerInfo(VStr(name), imageId, VInt(DefaultFlavor), DefaultNetworkId)),
        MigrationUpdated(id, StatusEventParams("COMPLETED", "COMPLETED")) ]
  {
    Flatten(MigrationUpdated(id, StatusEventParams("IN-PROGRESS", "INIT")),
            EventUpdate(id, "FETCHING_IMAGES"), VmFetched(uuid),
            EventUpdate(id, "CONVERTING_IMAGES"), VmConverted(uuid),
            EventUpdate(id, "PUSHING_TO_GLANCE"), ImageCreated(ImageMeta(Some(name)), DiskPath(basePath, Some(name))),
            EventUpdate(id, "BOOTING_IMAGES"), ServerBooted(ServerInfo(VStr(name), imageId, VInt(DefaultFlavor), DefaultNetworkId)),
            MigrationUpdated(id, StatusEventParams("COMPLETED", "COMPLETED")));
  }

  /** The nesting of `RunSteps` flattened: an initial update, then four pairs, then a final update. */
  lemma Flatten(a0: Action, a1: Action, a2: Action, a3: Action, a4: Action,
                a5: Action, a6: Action, a7: Action, a8: Action, a9: Action)
    ensures [a0] + ([a1, a2] + ([a3, a4] + ([a5, a6] + ([a7, a8] + [a9])))) == [a0, a1, a2, a3, a4, a5, a6, a7, a8, a9]
  {
  }

  /** The update of the catch-all handler. */
  function FailedUpdate(id: Value): Action
  {
    MigrationUpdated(id, StatusEventParams("FAILED", "FAILED"))
  }

  /** The steps issued up to and including the first one that raises. */
  function UpTo(steps: seq<Action>, fails: Action -> bool): (r: seq<Action>)
    ensures |r| <= |steps| && r == steps[..|r|]
  {
    if |steps| == 0 then []
    else if fails(steps[0]) then [steps[0]]
    else [steps[0]] + UpTo(steps[1..], fails)
  }

  predicate AllSucceed(steps: seq<Action>, fails: Action -> bool)
  {
    forall i :: 0 <= i < |steps| ==> !fails(steps[i])
  }

  /** Everything a run issues: the steps up to the first failure, then the failure update if there was one. */
  function Run(steps: seq<Action>, fails: Action -> bool, id: Value): seq<Action>
  {
    UpTo(steps, fails) + (if AllSucceed(steps, fails) then [] else [FailedUpdate(id)])
  }

  /** Past a prefix that does not raise, the issued steps are that prefix and what follows from the rest. */
  lemma {:induction false} UpToPrefix(steps: seq<Action>, fails: Action -> bool, k: nat)
    requires k <= |steps|
    requires forall j :: 0 <= j < k ==> !fails(steps[j])
    ensures UpTo(steps, fails) == steps[..k] + UpTo(steps[k..], fails)
  {
    if k > 0 {
      UpToPrefix(steps[1..], fails, k - 1);
      assert steps[1..][k - 1..] == steps[k..];
      assert steps[..k] == [steps[0]] + steps[1..][..k - 1];
    }
  }

  /** `a + b` returns normally exactly when `a` and `b` both do. */
  lemma AllSucceedAppend(a: seq<Action>, b: seq<Action>, fails: Action -> bool)
    ensures AllSucceed(a + b, fails) <==> AllSucceed(a, fails) && AllSucceed(b, fails)
  {
    assert forall i :: 0 <= i < |a| ==> (a + b)[i] == a[i];
    assert forall i :: 0 <= i < |b| ==> (a + b)[|a| + i] == b[i];
    if AllSucceed(a, fails) && AllSucceed(b, fails) {
      forall i | 0 <= i < |a + b|
        ensures !fails((a + b)[i])
      {
        if i >= |a| {
          assert (a + b)[i] == b[i - |a|];
        }
      }
    }
  }

  /** Running `a` then `b`: `b` starts only when all of `a` returned normally. */
  lemma {:induction false} UpToAppend(a: seq<Action>, b: seq<Action>, fails: Action -> bool)
    ensures UpTo(a + b, fails) == if AllSucceed(a, fails) then a + UpTo(b, fails) else UpTo(a, fails)
  {
    if a == [] {
      assert a + b == b;
    } else {
      assert (a + b)[0] == a[0] && (a + b)[1..] == a[1..] + b;
      UpToAppend(a[1..], b, fails);
      assert AllSucceed(a, fails) <==> !fails(a[0]) && AllSucceed(a[1..], fails) by {
        assert forall i :: 0 < i < |a| ==> a[i] == a[1..][i - 1];
      }
      if !fails(a[0]) && AllSucceed(a[1..], fails) {
        assert [a[0]] + (a[1..] + UpTo(b, fails)) == a + UpTo(b, fails) by {
          assert [a[0]] + a[1..] == a;
        }
      }
    }
  }

  /** A two-action step: the second action runs only if the first returned normally. */
  lemma UpToPair(x: Action, y: Action, fails: Action -> bool)
    ensures UpTo([x, y], fails) == if fails(x) then [x] else [x, y]
    ensures AllSucceed([x, y], fails) <==> !fails(x) && !fails(y)
  {
    assert [x, y][1..] == [y];
  }

  /**
   * A step `a` that moves the trace from `t0` to `t1`, followed, when it
   * returned normally, by a step `b` that moves it on to `t2`.
   */
  lemma Sequence(t0: seq<Action>, t1: seq<Action>, t2: seq<Action>, a: seq<Action>, b: seq<Action>, fails: Action -> bool)
    requires t1 == t0 + UpTo(a, fails)
    requires AllSucceed(a, fails) ==> t2 == t1 + UpTo(b, fails)
    requires !AllSucceed(a, fails) ==> t2 == t1
    ensures t2 == t0 + UpTo(a + b, fails)
    ensures AllSucceed(a + b, fails) <==> AllSucceed(a, fails) && AllSucceed(b, fails)
  {
    AllSucceedAppend(a, b, fails);
    SequenceTrace(t0, t1, t2, a, b, AllSucceed(a, fails), fails);
  }

  /** The trace part of `Sequence`, with whether `a` returned normally as `ok`. */
  lemma SequenceTrace(t0: seq<Action>, t1: seq<Action>, t2: seq<Action>, a: seq<Action>, b: seq<Action>, ok: bool,
                      fails: Action -> bool)
    requires ok == AllSucceed(a, fails)
    requires t1 == t0 + UpTo(a, fails)
    requires ok ==> t2 == t1 + UpTo(b, fails)
    requires !ok ==> t2 == t1
    ensures t2 == t0 + UpTo(a + b, fails)
  {
    UpToAppend(a, b, fails);
    if ok {
      UpToAll(a, fails);
    }
    AppendTraces(t0, t1, t2, a, UpTo(a, fails), UpTo(b, fails), UpTo(a + b, fails), ok);
  }

  /** Trace arithmetic behind `SequenceTrace`, over the issued parts as plain sequences. */
  lemma AppendTraces(t0: seq<Action>, t1: seq<Action>, t2: seq<Action>, a: seq<Action>,
                     ua: seq<Action>, ub: seq<Action>, uab: seq<Action>, ok: bool)
    requires t1 == t0 + ua
    requires ok ==> ua == a && uab == a + ub && t2 == t1 + ub
    requires !ok ==> uab == ua && t2 == t1
    ensures t2 == t0 + uab
  {
    if ok {
      assert (t0 + a) + ub == t0 + (a + ub);
    }
  }

  /** A step none of whose actions raises is issued whole. */
  lemma {:induction false} UpToAll(a: seq<Action>, fails: Action -> bool)
    requires AllSucceed(a, fails)
    ensures UpTo(a, fails) == a
  {
    if a != [] {
      assert !fails(a[0]);
      assert forall i :: 0 <= i < |a[1..]| ==> a[1..][i] == a[i + 1];
      UpToAll(a[1..], fails);
      assert [a[0]] + a[1..] == a;
    }
  }

  /** A one-action step. */
  lemma UpToSingle(x: Action, fails: Action -> bool)
    ensures UpTo([x], fails) == [x]
    ensures AllSucceed([x], fails) <==> !fails(x)
  {
    assert [x][1..] == [];
  }

  /** A step is issued only when every step before it returned normally. */
  lemma {:induction false} StrictlySequential(steps: seq<Action>, fails: Action -> bool, i: nat)
    requires i < |UpTo(steps, fails)|
    ensures forall j :: 0 <= j < i ==> !fails(steps[j])
  {
    if i > 0 {
      StrictlySequential(steps[1..], fails, i - 1);
      forall j | 0 < j < i
        ensures !fails(steps[j])
      {
        assert steps[j] == steps[1..][j - 1];
      }
    }
  }

  /** The position of the first step that raises. */
  function FirstFailure(steps: seq<Action>, fails: Action -> bool): (k: nat)
    requires !AllSucceed(steps, fails)
    ensures k < |steps| && fails(steps[k])
    ensures forall j :: 0 <= j < k ==> !fails(steps[j])
  {
    if fails(steps[0]) then 0
    else
      var k := FirstFailure(steps[1..], fails);
      assert forall j :: 0 < j <= k ==> steps[j] == steps[1..][j - 1];
      k + 1
  }

  /** A run issues the steps up to the first one that raises and nothing after it. */
  lemma {:induction false} UpToStopsAtFailure(steps: seq<Action>, fails: Action -> bool, k: nat)
    requires k < |steps| && fails(steps[k])
    requires forall j :: 0 <= j < k ==> !fails(steps[j])
    ensures UpTo(steps, fails) == steps[..k + 1]
  {
    UpToPrefix(steps, fails, k);
    assert steps[..k + 1] == steps[..k] + [steps[k]];
  }

  /** Every event the steps of a run write alone is in the vocabulary, so `update_migration` accepts them. */
  lemma StepEventsValid()
    ensures Validate(EventParams("FETCHING_IMAGES")).Pass?
    ensures Validate(EventParams("CONVERTING_IMAGES")).Pass?
    ensures Validate(EventParams("PUSHING_TO_GLANCE")).Pass?
    ensures Validate(EventParams("BOOTING_IMAGES")).Pass?
  {
    assert MigrationEvents[1] == "FETCHING_IMAGES";
    EventValid("FETCHING_IMAGES");
    assert MigrationEvents[2] == "CONVERTING_IMAGES";
    EventValid("CONVERTING_IMAGES");
    assert MigrationEvents[3] == "PUSHING_TO_GLANCE";
    EventValid("PUSHING_TO_GLANCE");
    assert MigrationEvents[4] == "BOOTING_IMAGES";
    EventValid("BOOTING_IMAGES");
  }

  /** Every status and event `__call__` writes together is in the vocabularies. */
  lemma CallStatusesValid()
    ensures Validate(StatusEventParams("IN-PROGRESS", "INIT")).Pass?
    ensures Validate(StatusEventParams("COMPLETED", "COMPLETED")).Pass?
    ensures Validate(StatusEventParams("FAILED", "FAILED")).Pass?
  {
    assert MigrationStatus[1] == "IN-PROGRESS" && MigrationEvents[0] == "INIT";
    StatusEventValid("IN-PROGRESS", "INIT");
    assert MigrationStatus[2] == "COMPLETED" && MigrationEvents[6] == "COMPLETED";
    StatusEventValid("COMPLETED", "COMPLETED");
    assert MigrationStatus[0] == "FAILED" && MigrationEvents[5] == "FAILED";
    StatusEventValid("FAILED", "FAILED");
  }

  class VSphereMigration {
    const base: BaseMigration
    const sourceHypervisorId: string

    /** `VSphereMigration.__init__` sets the base fields itself. */
    constructor(ctxt: Option<Context>, vm: MigrationVM, migrationRef: Dict, sourceHypervisorId: string)
      ensures fresh(base) && base.trace == []
      ensures base.ctxt == ctxt && base.migrationRef == Some(Get(migrationRef, "id")) && base.vm == Some(vm)
      ensures this.sourceHypervisorId == sourceHypervisorId
    {
      var b := new BaseMigration();
      b.ctxt := ctxt;
      b.migrationRef := Some(Get(migrationRef, "id"));
      b.vm := Some(vm);
      base := b;
      this.sourceHypervisorId := sourceHypervisorId;
    }

    predicate Valid()
      reads this, base
    {
      base.migrationRef.Some? && base.vm.Some?
    }

    /**
     * `fetch_vm`: the event is recorded, then the client fetches the VM.
     * The client first looks the uuid up at the source; `found` says
     * whether that lookup finds it, and only then does the local VM take
     * its source name `remoteName`, whether or not the download after it
     * succeeds. An unknown uuid makes the fetch raise.
     */
    method FetchVm(fails: Action -> bool, found: bool, remoteName: string) returns (out: Outcome)
      requires Valid()
      requires !found ==> fails(VmFetched(base.vm.value.uuid))
      modifies base, base.vm.value
      ensures Valid() && base.vm == old(base.vm) && base.migrationRef == old(base.migrationRef)
      ensures
        var step := [EventUpdate(base.migrationRef.value, "FETCHING_IMAGES"), VmFetched(base.vm.value.uuid)];
        && base.trace == old(base.trace) + UpTo(step, fails)
        && (out.Pass? <==> AllSucceed(step, fails))
        && base.vm.value.name == (if fails(step[0]) || !found then old(base.vm.value.name) else Some(remoteName))
    {
      var vm := base.vm.value;
      UpToPair(EventUpdate(base.migrationRef.value, "FETCHING_IMAGES"), VmFetched(vm.uuid), fails);
      StepEventsValid();
      out := base.UpdateMigration(EventParams("FETCHING_IMAGES"), fails);
      if out.Fail? {
        return;
      }
      if found {
        vm.SetName(Some(remoteName));
      }
      var fetch := VmFetched(vm.uuid);
      base.trace := base.trace + [fetch];
      out := Attempt(fetch, fails);
    }

    /** `convert_vm`: the event is recorded before the disk is converted. */
    method ConvertVm(fails: Action -> bool) returns (out: Outcome)
      requires Valid()
      modifies base
      ensures Valid() && base.vm == old(base.vm) && base.migrationRef == old(base.migrationRef)
      ensures
        var step := [EventUpdate(base.migrationRef.value, "CONVERTING_IMAGES"), VmConverted(base.vm.value.uuid)];
        && base.trace == old(base.trace) + UpTo(step, fails)
        && (out.Pass? <==> AllSucceed(step, fails))
    {
      UpToPair(EventUpdate(base.migrationRef.value, "CONVERTING_IMAGES"), VmConverted(base.vm.value.uuid), fails);
      StepEventsValid();
      out := base.UpdateMigration(EventParams("CONVERTING_IMAGES"), fails);
      if out.Fail? {
        return;
      }
      var convert := VmConverted(base.vm.value.uuid);
      base.trace := base.trace + [convert];
      out := Attempt(convert, fails);
    }

    /** The `try` block of `__call__` from `boot_image` on, for a VM named `name`. */
    method RunFromBoot(fails: Action -> bool, imageId: string, ghost name: string) returns (o: Outcome)
      requires Valid() && base.vm.value.name == Some(name)
      modifies base
      ensures Valid() && base.vm == old(base.vm) && base.migrationRef == old(base.migrationRef)
      ensures
        var steps := FromBoot(base.migrationRef.value, name, imageId);
        && base.trace == old(base.trace) + UpTo(steps, fails)
        && (o.Pass? <==> AllSucceed(steps, fails))
    {
      var id := base.migrationRef.value;
      var boot := [EventUpdate(id, "BOOTING_IMAGES"),
                   ServerBooted(ServerInfo(VStr(name), imageId, VInt(DefaultFlavor), DefaultNetworkId))];
      UpToPair(boot[0], boot[1], fails);
      ghost var t0 := base.trace;
      o := base.BootImage(imageId, VInt(DefaultFlavor), DefaultNetworkId, fails);
      ghost var t1 := base.trace;
      var complete := MigrationUpdated(id, StatusEventParams("COMPLETED", "COMPLETED"));
      UpToSingle(complete, fails);
      if o.Pass? {
        CallStatusesValid();
        o := base.UpdateMigration(StatusEventParams("COMPLETED", "COMPLETED"), fails);
      }
      Sequence(t0, t1, base.trace, boot, [complete], fails);
    }

    /** The `try` block of `__call__` from `push_to_glance` on; the image Glance creates is the one booted. */
    method RunFromPush(fails: Action -> bool, imageId: string, ghost name: string) returns (o: Outcome)
      requires Valid() && base.vm.value.name == Some(name)
      modifies base
      ensures Valid() && base.vm == old(base.vm) && base.migrationRef == old(base.migrationRef)
      ensures
        var steps := FromPush(base.migrationRef.value, base.vm.value.basePath, name, imageId);
        && base.trace == old(base.trace) + UpTo(steps, fails)
        && (o.Pass? <==> AllSucceed(steps, fails))
    {
      var vm := base.vm.value;
      var push := [EventUpdate(base.migrationRef.value, "PUSHING_TO_GLANCE"),
                   ImageCreated(ImageMeta(Some(name)), DiskPath(vm.basePath, Some(name)))];
      UpToPair(push[0], push[1], fails);
      ghost var t0 := base.trace;
      var image := base.PushToGlance(fails, imageId);
      ghost var t1 := base.trace;
      if image.Err? {
        o := Fail(image.error);
      } else {
        o := RunFromBoot(fails, image.value, name);
      }
      Sequence(t0, t1, base.trace, push, FromBoot(base.migrationRef.value, name, imageId), fails);
    }

    /** The `try` block of `__call__` from `convert_vm` on. */
    method RunFromConvert(fails: Action -> bool, imageId: string, ghost name: string) returns (o: Outcome)
      requires Valid() && base.vm.value.name == Some(name)
      modifies base
      ensures Valid() && base.vm == old(base.vm) && base.migrationRef == old(base.migrationRef)
      ensures
        var steps := FromConvert(base.migrationRef.value, base.vm.value.uuid, base.vm.value.basePath, name, imageId);
        && base.trace == old(base.trace) + UpTo(steps, fails)
        && (o.Pass? <==> AllSucceed(steps, fails))
    {
      var vm := base.vm.value;
      ghost var t0 := base.trace;
      o := ConvertVm(fails);
      ghost var t1 := base.trace;
      if o.Pass? {
        o := RunFromPush(fails, imageId, name);
      }
      Sequence(t0, t1, base.trace, [EventUpdate(base.migrationRef.value, "CONVERTING_IMAGES"), VmConverted(vm.uuid)],
               FromPush(base.migrationRef.value, vm.basePath, name, imageId), fails);
    }

    /** The `try` block of `__call__` from `fetch_vm` on. */
    method RunFromFetch(fails: Action -> bool, found: bool, imageId: string, remoteName: string) returns (o: Outcome)
      requires Valid()
      requires !found ==> fails(VmFetched(base.vm.value.uuid))
      modifies base, base.vm.value
      ensures Valid() && base.vm == old(base.vm) && base.migrationRef == old(base.migrationRef)
      ensures
        var steps := FromFetch(base.migrationRef.value, base.vm.value.uuid, base.vm.value.basePath, remoteName, imageId);
        && base.trace == old(base.trace) + UpTo(steps, fails)
        && (o.Pass? <==> AllSucceed(steps, fails))
    {
      var vm := base.vm.value;
      ghost var t0 := base.trace;
      o := FetchVm(fails, found, remoteName);
      ghost var t1 := base.trace;
      if o.Pass? {
        o := RunFromConvert(fails, imageId, remoteName);
      }
      Sequence(t0, t1, base.trace, [EventUpdate(base.migrationRef.value, "FETCHING_IMAGES"), VmFetched(vm.uuid)],
               FromConvert(base.migrationRef.value, vm.uuid, vm.basePath, remoteName, imageId), fails);
    }

    /** The `try` block of `__call__`: the steps run strictly in order and the first one that raises ends it. */
    method RunUntilFailure(fails: Action -> bool, found: bool, imageId: string, remoteName: string) returns (o: Outcome)
      requires Valid()
      requires !found ==> fails(VmFetched(base.vm.value.uuid))
      modifies base, base.vm.value
      ensures Valid() && base.vm == old(base.vm) && base.migrationRef == old(base.migrationRef)
      ensures
        var steps := RunSteps(base.migrationRef.value, base.vm.value.uuid, base.vm.value.basePath, remoteName, imageId);
        && base.trace == old(base.trace) + UpTo(steps, fails)
        && (o.Pass? <==> AllSucceed(steps, fails))
    {
      var vm := base.vm.value;
      var init := [MigrationUpdated(base.migrationRef.value, StatusEventParams("IN-PROGRESS", "INIT"))];
      UpToSingle(init[0], fails);
      ghost var t0 := base.trace;
      CallStatusesValid();
      o := base.UpdateMigration(StatusEventParams("IN-PROGRESS", "INIT"), fails);
      ghost var t1 := base.trace;
      if o.Pass? {
        o := RunFromFetch(fails, found, imageId, remoteName);
      }
      Sequence(t0, t1, base.trace, init, FromFetch(base.migrationRef.value, vm.uuid, vm.basePath, remoteName, imageId), fails);
    }

    /**
     * `__call__`: the steps run strictly in order until one raises; then
     * the record is marked FAILED and the exception is swallowed, unless
     * that update raises too. `remoteName` is the VM's name at the source,
     * `found` whether the source knows the VM's uuid,
     * `imageId` the id Glance gives the uploaded image.
     */
    method Call(fails: Action -> bool, found: bool, imageId: string, remoteName: string) returns (out: Outcome)
      requires Valid()
      requires !found ==> fails(VmFetched(base.vm.value.uuid))
      modifies base, base.vm.value
      ensures Valid() && base.vm == old(base.vm) && base.migrationRef == old(base.migrationRef)
      ensures
        var steps := RunSteps(base.migrationRef.value, base.vm.value.uuid, base.vm.value.basePath, remoteName, imageId);
        && base.trace == old(base.trace) + Run(steps, fails, base.migrationRef.value)
        && (AllSucceed(steps, fails) ==> out.Pass?)
        && (!AllSucceed(steps, fails) ==> out == Attempt(FailedUpdate(base.migrationRef.value), fails))
    {
      var o := RunUntilFailure(fails, found, imageId, remoteName);
      if o.Fail? {
        CallStatusesValid();
        out := base.UpdateMigration(StatusEventParams("FAILED", "FAILED"), fails);
      } else {
        out := Pass;
      }
    }
  }

  /** A run in which nothing raises records the events in order and ends COMPLETED. */
  lemma SuccessfulRunEvents(id: Value, uuid: string, basePath: string, name: string, imageId: string, fails: Action -> bool)
    requires AllSucceed(RunSteps(id, uuid, basePath, name, imageId), fails)
    ensures Run(RunSteps(id, uuid, basePath, name, imageId), fails, id) == RunSteps(id, uuid, basePath, name, imageId)
    ensures Run(RunSteps(id, uuid, basePath, name, imageId), fails, id)[9] ==
      MigrationUpdated(id, StatusEventParams("COMPLETED", "COMPLETED"))
  {
    RunStepsOrder(id, uuid, basePath, name, imageId);
    var steps := RunSteps(id, uuid, basePath, name, imageId);
    UpToPrefix(steps, fails, |steps|);
  }

  /** A run in which a step raises issues nothing after that step but the FAILED update. */
  lemma FailedRunEndsFailed(steps: seq<Action>, fails: Action -> bool, id: Value)
    requires !AllSucceed(steps, fails)
    ensures Run(steps, fails, id)[|Run(steps, fails, id)| - 1] == FailedUpdate(id)
    ensures exists k :: 0 <= k < |steps| && fails(steps[k]) && Run(steps, fails, id) == steps[..k + 1] + [FailedUpdate(id)]
  {
    var k := FirstFailure(steps, fails);
    UpToStopsAtFailure(steps, fails, k);
  }
}
