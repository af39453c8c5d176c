/**
 * guts/migration/common/migration.py: the status and event vocabularies
 * of a migration record and the base migration, which validates and writes
 * record updates, uploads the converted image to Glance and boots a server
 * from it.
 *
 * The record writes and the Glance and Nova calls are actions appended to
 * `trace`; whether one of them raises is decided by the oracle `fails`.
 */
module MigrationCommon {
  import opened Wrappers
  import opened PyValues
  import opened Exceptions
  import opened Db
  import opened MigrationVm

  const DefaultNetworkId: string := "dbfaffc0-f4f5-4efe-9ced-3f16e6333bc5"
  const DefaultFlavor: int := 3

  const MigrationEvents: seq<string> :=
    ["INIT", "FETCHING_IMAGES", "CONVERTING_IMAGES", "PUSHING_TO_GLANCE", "BOOTING_IMAGES", "FAILED", "COMPLETED"]
  const MigrationStatus: seq<string> := ["FAILED", "IN-PROGRESS", "COMPLETED"]

  /** A remote action of a migration run. */
  datatype Action =
    | MigrationUpdated(id: Value, params: Dict)
    | VmFetched(uuid: string)
    | VmConverted(uuid: string)
    | ImageCreated(meta: Dict, path: Option<string>)
    | ServerBooted(info: Dict)

  /** The outcome of attempting an action. */
  function Attempt(a: Action, fails: Action -> bool): (out: Outcome)
    ensures out.Fail? <==> fails(a)
  {
    if fails(a) then Raise(PlainException, "remote call failed") else Pass
  }

  predicate ValidEvent(v: Value)
  {
    v.VStr? && v.s in MigrationEvents
  }

  predicate ValidStatus(v: Value)
  {
    v.VStr? && v.s in MigrationStatus
  }

  /** The vocabulary checks of `update_migration`, event first. */
  function Validate(params: Dict): (r: Outcome)
    ensures r.Pass? <==>
      && ("migration_event" in params ==> ValidEvent(params["migration_event"]))
      && ("migration_status" in params ==> ValidStatus(params["migration_status"]))
    ensures "migration_event" in params && !ValidEvent(params["migration_event"]) ==>
      r == Raise(PlainException, "Invalid migration event type")
    ensures r.Fail? ==> r.error.kind == PlainException
  {
    if "migration_event" in params && !ValidEvent(params["migration_event"]) then
      Raise(PlainException, "Invalid migration event type")
    else if "migration_status" in params && !ValidStatus(params["migration_status"]) then
      Raise(PlainException, "Invalid migration status type")
    else
      Pass
  }

  function EventParams(event: string): Dict
  {
    map["migration_event" := VStr(event)]
  }

  function StatusEventParams(status: string, event: string): Dict
  {
    map["migration_status" := VStr(status), "migration_event" := VStr(event)]
  }

  /** An update of the event alone passes validation when the event is in the vocabulary. */
  lemma EventValid(event: string)
    requires event in MigrationEvents
    ensures Validate(EventParams(event)).Pass?
  {
    assert "migration_status"[10] != "migration_event"[10];
  }

  /** An update of status and event passes validation when both are in their vocabularies. */
  lemma StatusEventValid(status: string, event: string)
    requires status in MigrationStatus && event in MigrationEvents
    ensures Validate(StatusEventParams(status, event)).Pass?
  {
    assert "migration_status"[10] != "migration_event"[10];
  }

  /** The server `boot_image` asks Nova for. */
  function ServerInfo(name: Value, imageId: string, flavor: Value, netId: string): (info: Dict)
    ensures info.Keys == {"name", "image", "flavor", "nics"}
    ensures info["name"] == name && info["image"] == VStr(imageId) && info["flavor"] == flavor
    ensures info["nics"] == VList([VDict(map["net-id" := VStr(netId)])])
  {
    map["name" := name, "image" := VStr(imageId), "flavor" := flavor,
        "nics" := VList([VDict(map["net-id" := VStr(netId)])])]
  }

  class BaseMigration {
    var ctxt: Option<Context>
    /** The id of `migration_ref`, or None while there is no record. */
    var migrationRef: Option<Value>
    var vm: Option<MigrationVM>
    var trace: seq<Action>

    /** `BaseMigration.__init__` ignores its arguments. */
    constructor()
      ensures ctxt == None && migrationRef == None && vm == None && trace == []
    {
      ctxt := None;
      migrationRef := None;
      vm := None;
      trace := [];
    }

    /**
     * `update_migration`: a value outside the vocabularies is rejected
     * before anything is written; otherwise the parameters are written,
     * unchanged, to the record of `migration_ref`.
     */
    method UpdateMigration(params: Dict, fails: Action -> bool) returns (out: Outcome)
      modifies this
      ensures ctxt == old(ctxt) && migrationRef == old(migrationRef) && vm == old(vm)
      ensures Validate(params).Fail? ==> out == Validate(params) && trace == old(trace)
      ensures Validate(params).Pass? && migrationRef.None? ==>
        out.Fail? && out.error.kind == AttributeError && trace == old(trace)
      ensures Validate(params).Pass? && migrationRef.Some? ==>
        && trace == old(trace) + [MigrationUpdated(migrationRef.value, params)]
        && out == Attempt(MigrationUpdated(migrationRef.value, params), fails)
    {
      out := Validate(params);
      if out.Fail? {
        return;
      }
      if migrationRef.None? {
        return Raise(AttributeError, "'NoneType' object has no attribute 'id'");
      }
      var write := MigrationUpdated(migrationRef.value, params);
      trace := trace + [write];
      out := Attempt(write, fails);
    }

    /** `push_to_glance`: the event is recorded before the converted disk is uploaded. */
    method PushToGlance(fails: Action -> bool, imageId: string) returns (r: Result<string>)
      requires vm.Some?
      modifies this
      ensures ctxt == old(ctxt) && migrationRef == old(migrationRef) && vm == old(vm)
      ensures
        var update := EventParams("PUSHING_TO_GLANCE");
        var upload := ImageCreated(ImageMeta(vm.value.name), DiskPath(vm.value.basePath, vm.value.name));
        if migrationRef.None? then
          r.Err? && r.error.kind == AttributeError && trace == old(trace)
        else if fails(MigrationUpdated(migrationRef.value, update)) then
          r.Err? && trace == old(trace) + [MigrationUpdated(migrationRef.value, update)]
        else
          && trace == old(trace) + [MigrationUpdated(migrationRef.value, update), upload]
          && (r.Err? <==> fails(upload))
          && (r.Ok? ==> r.value == imageId)
    {
      var update := EventParams("PUSHING_TO_GLANCE");
      assert Validate(update).Pass? by { assert update["migration_event"] == VStr("PUSHING_TO_GLANCE"); }
      var out := UpdateMigration(update, fails);
      if out.Fail? {
        return Err(out.error);
      }
      var upload := ImageCreated(ImageMeta(vm.value.name), DiskPath(vm.value.basePath, vm.value.name));
      trace := trace + [upload];
      var created := Attempt(upload, fails);
      if created.Fail? {
        return Err(created.error);
      }
      r := Ok(imageId);
    }

    /** `boot_image`: the event is recorded before the server is booted from the image. */
    method BootImage(imageId: string, flavor: Value, netId: string, fails: Action -> bool) returns (out: Outcome)
      requires vm.Some?
      modifies this
      ensures ctxt == old(ctxt) && migrationRef == old(migrationRef) && vm == old(vm)
      ensures
        var update := EventParams("BOOTING_IMAGES");
        var boot := ServerBooted(ServerInfo(NameOf(vm.value.name), imageId, flavor, netId));
        if migrationRef.None? then
          out.Fail? && out.error.kind == AttributeError && trace == old(trace)
        else if fails(MigrationUpdated(migrationRef.value, update)) then
          out.Fail? && trace == old(trace) + [MigrationUpdated(migrationRef.value, update)]
        else
          && trace == old(trace) + [MigrationUpdated(migrationRef.value, update), boot]
          && out == Attempt(boot, fails)
    {
      var update := EventParams("BOOTING_IMAGES");
      assert Validate(update).Pass? by { assert update["migration_event"] == VStr("BOOTING_IMAGES"); }
      out := UpdateMigration(update, fails);
      if out.Fail? {
        return;
      }
      var boot := ServerBooted(ServerInfo(NameOf(vm.value.name), imageId, flavor, netId));
      trace := trace + [boot];
      out := Attempt(boot, fails);
    }
  }
}
