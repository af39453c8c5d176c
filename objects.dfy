/**
 * guts/objects: the versioned objects Resource, Hypervisor and Migration
 * over the database, with their change tracking (an attribute set is a
 * pending change until the object is saved or reloaded), the
 * dictionary-style `get`, `obj_as_admin`, the naive-UTC change set and
 * the comparison by primitive form; and the list getters.
 */
module Objects {
  import opened Wrappers
  import opened PyValues
  import opened Exceptions
  import opened Db

  datatype ObjKind = ResourceObj | HypervisorObj | MigrationObj

  /** The oslo.versionedobjects field classes the objects declare. */
  datatype FieldType = StringField | BooleanField | DateTimeField | IntegerField

  /** `obj_name()`, the class name. */
  function ObjName(k: ObjKind): string
  {
    match k
    case ResourceObj => "Resource"
    case HypervisorObj => "Hypervisor"
    case MigrationObj => "Migration"
  }

  /** The table an object kind is stored in. */
  function TableOf(k: ObjKind): Table
  {
    match k
    case ResourceObj => Resources
    case HypervisorObj => Hypervisors
    case MigrationObj => Migrations
  }

  /** The fields of GutsPersistentObject, which every kind inherits. */
  function PersistentFields(): map<string, FieldType>
  {
    map["created_at" := DateTimeField, "updated_at" := DateTimeField, "deleted_at" := DateTimeField,
        "deleted" := BooleanField]
  }

  /** The class's own `fields`. */
  function OwnFields(k: ObjKind): map<string, FieldType>
  {
    match k
    case ResourceObj =>
      map["id" := StringField, "id_at_source" := StringField, "name" := StringField, "type" := StringField,
          "source" := StringField, "properties" := StringField, "migrated" := BooleanField,
          "deleted" := BooleanField]
    case HypervisorObj =>
      map["id" := StringField, "name" := StringField, "driver" := StringField, "type" := StringField,
          "host" := StringField, "allowed_hosts" := StringField, "exclude_resource_uuids" := StringField,
          "exclude_resource_names" := StringField, "conversion_dir" := StringField,
          "capabilities" := StringField, "credentials" := StringField, "enabled" := BooleanField]
    case MigrationObj =>
      map["id" := StringField, "name" := StringField, "description" := StringField,
          "resource_id" := StringField, "migration_status" := StringField, "migration_event" := StringField,
          "destination_hypervisor" := StringField, "extra_params" := StringField]
  }

  /** `obj_fields`: the inherited fields merged under the class's own, which win. */
  function FieldTypes(k: ObjKind): (fields: map<string, FieldType>)
    ensures fields.Keys == PersistentFields().Keys + OwnFields(k).Keys
    ensures forall name :: name in OwnFields(k) ==> fields[name] == OwnFields(k)[name]
  {
    PersistentFields() + OwnFields(k)
  }

  function Fields(k: ObjKind): set<string>
  {
    FieldTypes(k).Keys
  }

  /** What `_from_db_object` stores for one field: Integer `value or 0`, DateTime `value or None`. */
  function Coerce(ft: FieldType, v: Value): (r: Value)
    ensures ft == IntegerField ==> r == Or(v, VInt(0))
    ensures ft == DateTimeField ==> r == Or(v, VNone)
    ensures ft == StringField || ft == BooleanField ==> r == v
  {
    match ft
    case IntegerField => Or(v, VInt(0))
    case DateTimeField => Or(v, VNone)
    case _ => v
  }

  /** The attributes `_from_db_object` gives an object loaded from a row. */
  function Loaded(k: ObjKind, row: Dict): (attrs: Dict)
    ensures attrs.Keys == Fields(k)
  {
    LoadFields(FieldTypes(k), row)
  }

  /** Each of the given fields with the coerced value the row has for it. */
  function LoadFields(fields: map<string, FieldType>, row: Dict): (attrs: Dict)
    ensures attrs.Keys == fields.Keys
    ensures forall name :: name in fields ==> attrs[name] == Coerce(fields[name], Get(row, name))
  {
    map name | name in fields :: Coerce(fields[name], Get(row, name))
  }

  /** A map with exactly the fields, each holding its loaded value, is what `LoadFields` gives. */
  lemma EveryFieldLoaded(fields: map<string, FieldType>, row: Dict, loaded: Dict)
    requires loaded.Keys == fields.Keys
    requires forall name :: name in fields ==> loaded[name] == Coerce(fields[name], Get(row, name))
    ensures loaded == LoadFields(fields, row)
  {
    var expected := LoadFields(fields, row);
    assert forall name :: name in loaded ==> loaded[name] == expected[name];
  }

  /**
   * Every field of the row is copied unchanged except a falsy datetime,
   * which becomes None; a field the row lacks is None.
   */
  lemma LoadedFields(k: ObjKind, row: Dict)
    ensures forall name :: name in Fields(k) && FieldTypes(k)[name] != DateTimeField ==>
              Loaded(k, row)[name] == Get(row, name)
    ensures forall name :: name in Fields(k) && FieldTypes(k)[name] == DateTimeField ==>
              Loaded(k, row)[name] == (if Truthy(Get(row, name)) then row[name] else VNone)
  {
    forall name | name in Fields(k) && FieldTypes(k)[name] != DateTimeField
      ensures Loaded(k, row)[name] == Get(row, name)
    {
      assert FieldTypes(k)[name] != IntegerField by {
        assert name in PersistentFields() || name in OwnFields(k);
      }
    }
  }

  /** Loading the attributes of a loaded object gives the same attributes again. */
  lemma {:induction false} ReloadIsIdentity(k: ObjKind, row: Dict)
    ensures Loaded(k, Loaded(k, row)) == Loaded(k, row)
  {
    var once := Loaded(k, row);
    forall name | name in Fields(k)
      ensures Loaded(k, once)[name] == once[name]
    {
      var ft := FieldTypes(k)[name];
      assert Get(once, name) == once[name];
      if ft == DateTimeField || ft == IntegerField {
        var v := Get(row, name);
        if Truthy(v) {
          assert once[name] == v;
        } else {
          assert Truthy(once[name]) == false || ft == IntegerField;
        }
      }
    }
  }

  // ---------------------------------------------------------------------
  // guts_obj_get_changes
  // ---------------------------------------------------------------------

  /** A datetime with a UTC offset, as a naive UTC datetime: the value minus its offset. */
  function Naive(v: Value): (r: Value)
    ensures v.VTime? && v.utcOffset.Some? ==> r == VTime(v.seconds - v.utcOffset.value, None)
    ensures !(v.VTime? && v.utcOffset.Some?) ==> r == v
  {
    if v.VTime? && v.utcOffset.Some? then VTime(v.seconds - v.utcOffset.value, None) else v
  }

  /** The instant a datetime denotes, in seconds since the epoch UTC (naive values are UTC). */
  function Instant(v: Value): int
    requires v.VTime?
  {
    match v.utcOffset
    case None => v.seconds
    case Some(offset) => v.seconds - offset
  }

  /** `Naive` keeps the instant, leaves no offset, and changes nothing but datetimes. */
  lemma NaiveKeepsInstant(v: Value)
    ensures v.VTime? ==> Naive(v).VTime? && Naive(v).utcOffset.None? && Instant(Naive(v)) == Instant(v)
    ensures !v.VTime? ==> Naive(v) == v
    ensures Naive(Naive(v)) == Naive(v)
  {
  }

  /** The change set with every aware datetime made naive. */
  function NaiveAll(d: Dict): (r: Dict)
    ensures r.Keys == d.Keys
    ensures forall key :: key in d ==> r[key] == Naive(d[key])
  {
    map key | key in d :: Naive(d[key])
  }

  /** The loop of `guts_obj_get_changes`: each aware datetime in the change set is replaced in turn. */
  method NaiveChanges(changes: Dict) returns (updates: Dict)
    ensures updates == NaiveAll(changes)
  {
    updates := changes;
    var pending := changes.Keys;
    while pending != {}
      invariant pending <= changes.Keys && updates.Keys == changes.Keys
      invariant forall key :: key in changes ==> updates[key] == if key in pending then changes[key] else Naive(changes[key])
      decreases |pending|
    {
      var key :| key in pending;
      var v := updates[key];
      if v.VTime? && v.utcOffset.Some? {
        updates := updates[key := VTime(v.seconds - v.utcOffset.value, None)];
      }
      pending := pending - {key};
    }
  }

  // ---------------------------------------------------------------------
  // the objects
  // ---------------------------------------------------------------------

  /** An object's primitive form, which `__eq__` compares: its class, version, set fields and pending changes. */
  datatype Primitive = Primitive(name: string, version: string, data: Dict, changes: set<string>)

  /** What `__eq__` may be handed: a versioned object's primitive form, or any other value. */
  datatype Comparand = Versioned(primitive: Primitive) | Plain(v: Value)

  /** The entries of `values` that are fields of kind `k`. */
  function FieldsIn(k: ObjKind, values: Dict): (kept: Dict)
    ensures kept.Keys == values.Keys * Fields(k)
    ensures forall key :: key in kept ==> kept[key] == values[key]
  {
    map key | key in values && key in Fields(k) :: values[key]
  }

  /** The loop of `update`: the keys of `values` in turn, collecting those that are `declared` fields. */
  method FieldAssignments(values: Dict, declared: set<string>) returns (written: Dict)
    ensures written == map key | key in values && key in declared :: values[key]
  {
    written := map[];
    var pending := values.Keys;
    while pending != {}
      invariant pending <= values.Keys
      invariant forall key :: key in written ==>
        key in values && key !in pending && key in declared && written[key] == values[key]
      invariant forall key :: key in values && key !in pending && key in declared ==> key in written
      decreases |pending|
    {
      var key :| key in pending;
      if key in declared {
        written := written[key := values[key]];
      }
      pending := pending - {key};
    }
    assert written == map key | key in values && key in declared :: values[key];
  }

  /**
   * The ObjectActionError `create` raises for an object that already has
   * an id. The class sets `msg_fmt`, which GutsException never reads, so
   * its text is the inherited `message` (the `action` and `reason`
   * arguments fill no placeholder).
   */
  function AlreadyCreated(): (e: Exc)
    ensures e.kind == ObjectActionError && e.detail == "An unknown exception occurred."
  {
    Exc(ObjectActionError, Template(ObjectActionError))
  }

  class VersionedObject {
    const kind: ObjKind
    /** The fields that are set, with their values. */
    var attrs: Dict
    /** `_changed_fields`. */
    var changes: set<string>
    /** `_context`. */
    var context: Option<Context>

    ghost predicate Valid()
      reads this
    {
      attrs.Keys <= Fields(kind) && changes <= attrs.Keys
    }

    /** `cls(context)`: no field set and nothing changed. */
    constructor (kind: ObjKind, context: Option<Context>)
      ensures Valid() && this.kind == kind && attrs == map[] && changes == {} && this.context == context
    {
      this.kind := kind;
      attrs := map[];
      changes := {};
      this.context := context;
    }

    /** `obj_attr_is_set(name)`. */
    predicate IsSet(name: string)
      reads this
    {
      name in attrs
    }

    /**
     * Attribute access `obj.name`: the value of a set field; an unset
     * field is lazily loaded, which the base class refuses with
     * NotImplementedError.
     */
    function Attr(name: string): (r: Result<Value>)
      reads this
      ensures r.Ok? <==> name in attrs
      ensures r.Ok? ==> r.value == attrs[name]
      ensures r.Err? ==> r.error.kind == NotImplementedError
    {
      if name in attrs then Ok(attrs[name]) else Err(Exc(NotImplementedError, "Cannot load '" + name + "' in the base class"))
    }

    /**
     * `get(key, value=<not given>)`: None for an undeclared key; the
     * default for a declared but unset field when one is given; otherwise
     * the attribute.
     */
    function DictGet(key: string, default: Option<Value>): (r: Result<Value>)
      reads this
      ensures key !in Fields(kind) ==> r == Ok(VNone)
      ensures key in Fields(kind) && key in attrs ==> r == Ok(attrs[key])
      ensures key in Fields(kind) && key !in attrs && default.Some? ==> r == Ok(default.value)
      ensures key in Fields(kind) && key !in attrs && default.None? ==> r.Err? && r.error.kind == NotImplementedError
    {
      if key !in Fields(kind) then Ok(VNone)
      else if default.Some? && !IsSet(key) then Ok(default.value)
      else Attr(key)
    }

    /** Assigning a declared field stores the value and marks the field changed. */
    method SetField(name: string, v: Value)
      requires Valid() && name in Fields(kind)
      modifies this
      ensures Valid()
      ensures attrs == old(attrs)[name := v] && changes == old(changes) + {name} && context == old(context)
    {
      attrs := attrs[name := v];
      changes := changes + {name};
    }

    /**
     * `update(values)`, which the keyword arguments of the constructor
     * also go through: each key is assigned in turn. A field takes the
     * value and becomes a pending change; any other key becomes a plain
     * attribute, which no change set, row or view reads. The loop collects
     * the field assignments, which are then applied together.
     */
    method Update(values: Dict)
      requires Valid()
      modifies this
      ensures Valid() && context == old(context)
      ensures attrs == old(attrs) + FieldsIn(kind, values)
      ensures changes == old(changes) + values.Keys * Fields(kind)
      ensures old(changes) == {} ==> ObjGetChanges() == FieldsIn(kind, values)
    {
      var written := FieldAssignments(values, Fields(kind));
      assert written == FieldsIn(kind, values);
      attrs := attrs + written;
      changes := changes + written.Keys;
      assert old(changes) == {} ==> changes == written.Keys;
    }

    /** `obj_get_changes()`: the changed fields with their values. */
    function ObjGetChanges(): (d: Dict)
      requires Valid()
      reads this
      ensures d.Keys == changes
      ensures forall key :: key in d ==> d[key] == attrs[key]
    {
      map key | key in changes :: attrs[key]
    }

    /**
     * `guts_obj_get_changes()`: the changed fields, each aware datetime
     * replaced by the naive UTC datetime of the same instant.
     */
    method GutsObjGetChanges() returns (updates: Dict)
      requires Valid()
      ensures updates == NaiveAll(ObjGetChanges())
    {
      updates := NaiveChanges(ObjGetChanges());
    }

    /**
     * `_from_db_object(context, obj, row)`: every declared field is
     * assigned from the row, the context is set, and the change set is
     * reset, so nothing is pending.
     */
    method FromDbObject(ctx: Option<Context>, row: Dict)
      requires Valid()
      modifies this
      ensures Valid() && attrs == Loaded(kind, row) && changes == {} && context == ctx
    {
      AssignFields(FieldTypes(kind), row);
      context := ctx;
      changes := {};
    }

    /** The loop of `_from_db_object`: `obj[name] = value` for every field, each one marked changed. */
    method AssignFields(fields: map<string, FieldType>, row: Dict)
      requires attrs.Keys <= fields.Keys && changes <= attrs.Keys
      modifies this
      ensures attrs == LoadFields(fields, row) && changes == fields.Keys && context == old(context)
    {
      var loaded := attrs;
      var marked := changes;
      var pending := fields.Keys;
      while pending != {}
        invariant pending <= fields.Keys
        invariant loaded.Keys <= fields.Keys && marked <= loaded.Keys
        invariant fields.Keys - pending <= marked
        invariant forall name :: name in fields && name !in pending ==> loaded[name] == Coerce(fields[name], Get(row, name))
        decreases |pending|
      {
        var name :| name in pending;
        loaded := loaded[name := Coerce(fields[name], Get(row, name))];
        marked := marked + {name};
        pending := pending - {name};
      }
      EveryFieldLoaded(fields, row, loaded);
      attrs := loaded;
      changes := marked;
    }

    /**
     * `create()`: an ObjectActionError when `id` is already set; otherwise
     * the pending changes (as naive datetimes) go to the table's create,
     * and the object is reloaded from the row it returns. On any error the
     * object is as before.
     */
    method Create(db: Database, freshId: string, now: int) returns (r: Result<Dict>)
      requires Valid() && db.Valid()
      modifies this, db
      ensures Valid() && db.Valid() && context == old(context)
      ensures "id" in old(attrs) ==> r == Err(AlreadyCreated()) && unchanged(this) && unchanged(db)
      ensures "id" !in old(attrs) ==> db.CreateSpec(TableOf(kind), context, NaiveAll(old(ObjGetChanges())), freshId, now, r)
      ensures r.Ok? ==> attrs == Loaded(kind, r.value) && changes == {} && Attr("id") == Ok(VStr(freshId))
      ensures r.Err? ==> attrs == old(attrs) && changes == old(changes)
    {
      if IsSet("id") {
        return Err(AlreadyCreated());
      }
      r := CreateUnset(db, freshId, now);
    }

    /** `create()` past its check that `id` is not set. */
    method CreateUnset(db: Database, freshId: string, now: int) returns (r: Result<Dict>)
      requires Valid() && db.Valid() && "id" !in attrs
      modifies this, db
      ensures Valid() && db.Valid() && context == old(context)
      ensures db.CreateSpec(TableOf(kind), context, NaiveAll(old(ObjGetChanges())), freshId, now, r)
      ensures r.Ok? ==> attrs == Loaded(kind, r.value) && changes == {} && Attr("id") == Ok(VStr(freshId))
      ensures r.Err? ==> attrs == old(attrs) && changes == old(changes)
    {
      var updates := GutsObjGetChanges();
      assert "id" !in updates;
      r := DbCreate(db, kind, context, updates, freshId, now);
      if r.Ok? {
        FromDbObject(context, r.value);
        LoadedId(kind, r.value);
      }
    }

    /**
     * `save()`: with nothing pending, no database call; otherwise the
     * pending changes go to the table's update for this object's id, and
     * are cleared when it succeeds. Reading `id` of an object without one
     * fails before the call.
     */
    method Save(db: Database, now: int) returns (r: Result<Dict>)
      requires Valid() && db.Valid()
      modifies this, db
      ensures Valid() && db.Valid() && attrs == old(attrs) && context == old(context)
      ensures old(changes) == {} ==> r == Ok(map[]) && unchanged(db) && changes == {}
      ensures old(changes) != {} && "id" !in attrs ==>
                r == Err(Attr("id").error) && unchanged(db) && changes == old(changes)
      ensures old(changes) != {} && "id" in attrs ==>
                db.ChangeSpec(TableOf(kind), context, attrs["id"], NaiveAll(old(ObjGetChanges())), now, false, r)
      ensures old(changes) != {} && r.Ok? ==> changes == {}
      ensures r.Err? ==> changes == old(changes)
    {
      var updates := GutsObjGetChanges();
      if updates == map[] {
        assert changes == updates.Keys;
        return Ok(map[]);
      }
      var id := Attr("id");
      if id.Err? {
        return Err(id.error);
      }
      r := DbUpdate(db, kind, context, id.value, updates, now);
      ClearChangesOn(r);
    }

    /** `obj_reset_changes()` once the update succeeded; a raised update leaves the changes pending. */
    method ClearChangesOn(r: Result<Dict>)
      modifies this
      ensures attrs == old(attrs) && context == old(context)
      ensures changes == if r.Ok? then {} else old(changes)
    {
      if r.Ok? {
        changes := {};
      }
    }

    /**
     * `destroy()`: under `obj_as_admin`, the table's soft delete of this
     * object's id with the context elevated to admin; an object without a
     * context is an OrphanedObjectError. The original context is back
     * afterwards whatever happened.
     */
    method Destroy(db: Database, now: int) returns (out: Outcome)
      requires Valid() && db.Valid()
      modifies this, db
      ensures Valid() && db.Valid()
      ensures attrs == old(attrs) && changes == old(changes) && context == old(context)
      ensures old(context).None? ==>
                out == Fail(Exc(OrphanedObjectError, "Cannot call obj_as_admin on orphaned " + ObjName(kind) + " object"))
                && unchanged(db)
      ensures old(context).Some? && "id" !in attrs ==> out == Fail(Attr("id").error) && unchanged(db)
      ensures old(context).Some? && "id" in attrs ==>
                db.RemoveSpec(TableOf(kind), Some(Elevated(old(context).value)), attrs["id"], now, true, out)
    {
      if context.None? {
        return Fail(Exc(OrphanedObjectError, "Cannot call obj_as_admin on orphaned " + ObjName(kind) + " object"));
      }
      var original := context;
      context := Some(Elevated(context.value));
      var id := Attr("id");
      if id.Err? {
        out := Fail(id.error);
      } else {
        out := DbDelete(db, kind, context, id.value, now);
      }
      context := original;
    }

    /** `obj_to_primitive()`, as far as `__eq__` looks at it; every class is at version 1.0. */
    function ToPrimitive(): Primitive
      reads this
    {
      Primitive(ObjName(kind), "1.0", attrs, changes)
    }

    /** `__eq__(other)`: unequal to anything without `obj_to_primitive`, else equal primitives. */
    predicate EqualTo(other: Comparand)
      reads this
    {
      other.Versioned? && other.primitive == ToPrimitive()
    }

    /** Two objects are equal exactly when they have the same class, the same set fields and the same pending changes. */
    lemma EqualIff(other: VersionedObject)
      ensures EqualTo(Versioned(other.ToPrimitive())) <==>
                ObjName(kind) == ObjName(other.kind) && attrs == other.attrs && changes == other.changes
      ensures forall v :: !EqualTo(Plain(v))
    {
    }
  }

  /** The create function of the kind's table: `resource_create`, `hypervisor_create` or `migration_create`. */
  method DbCreate(db: Database, kind: ObjKind, ctx: Option<Context>, values: Dict, freshId: string, now: int)
    returns (r: Result<Dict>)
    requires db.Valid()
    modifies db
    ensures db.Valid() && db.CreateSpec(TableOf(kind), ctx, values, freshId, now, r)
    ensures r.Ok? ==> r.value == Defaults(TableOf(kind), now) + WithId(values, freshId)
    ensures r.Ok? && "id" !in values ==> "id" in r.value && r.value["id"] == VStr(freshId)
  {
    match kind {
      case ResourceObj => r := db.ResourceCreate(ctx, values, freshId, now);
      case HypervisorObj => r := db.HypervisorCreate(ctx, values, freshId, now);
      case MigrationObj => r := db.MigrationCreate(ctx, values, freshId, now);
    }
  }

  /** The update function of the kind's table. */
  method DbUpdate(db: Database, kind: ObjKind, ctx: Option<Context>, id: Value, values: Dict, now: int)
    returns (r: Result<Dict>)
    requires db.Valid()
    modifies db
    ensures db.Valid() && db.ChangeSpec(TableOf(kind), ctx, id, values, now, false, r)
  {
    match kind
    case ResourceObj => r := db.ResourceUpdate(ctx, id, values, now);
    case HypervisorObj => r := db.HypervisorUpdate(ctx, id, values, now);
    case MigrationObj => r := db.MigrationUpdate(ctx, id, values, now);
  }

  /** The soft-delete function of the kind's table. */
  method DbDelete(db: Database, kind: ObjKind, ctx: Option<Context>, id: Value, now: int) returns (out: Outcome)
    requires db.Valid()
    modifies db
    ensures db.Valid() && db.RemoveSpec(TableOf(kind), ctx, id, now, true, out)
  {
    match kind
    case ResourceObj => out := db.ResourceDelete(ctx, id, now);
    case HypervisorObj => out := db.HypervisorDelete(ctx, id, now);
    case MigrationObj => out := db.MigrationDelete(ctx, id, now);
  }

  /** Every kind declares `id` as a string field, so a loaded object's id is the row's. */
  lemma LoadedId(k: ObjKind, row: Dict)
    ensures "id" in Fields(k) && Loaded(k, row)["id"] == Get(row, "id")
  {
    assert "id" in OwnFields(k) && OwnFields(k)["id"] == StringField;
  }

  /** `RequestContext.elevated()`: the same request with admin rights. */
  function Elevated(ctx: Context): (r: Context)
    ensures r.isAdmin && r.userId == ctx.userId && r.projectId == ctx.projectId && r.readDeleted == ctx.readDeleted
  {
    ctx.(isAdmin := true)
  }

  /** An elevated context passes every admin check. */
  lemma ElevatedIsAdmin(ctx: Context)
    ensures RequireAdminContext(Some(Elevated(ctx))).Pass?
  {
  }

  // ---------------------------------------------------------------------
  // class-level getters
  // ---------------------------------------------------------------------

  /** `cls._from_db_object(context, cls(context), row)` for a row a getter found, or the getter's error. */
  method Load(kind: ObjKind, ctx: Option<Context>, found: Result<Dict>) returns (r: Result<VersionedObject>)
    ensures found.Err? ==> r == Err(found.error)
    ensures found.Ok? ==>
          && r.Ok? && fresh(r.value) && r.value.Valid() && r.value.kind == kind
          && r.value.attrs == Loaded(kind, found.value) && r.value.changes == {}
          && r.value.context == ctx
  {
    if found.Err? {
      return Err(found.error);
    }
    var obj := new VersionedObject(kind, ctx);
    obj.FromDbObject(ctx, found.value);
    r := Ok(obj);
  }

  /** `Resource.get(context, id)`. */
  method ResourceGet(db: Database, ctx: Option<Context>, id: Value) returns (r: Result<VersionedObject>)
    ensures db.ResourceGet(ctx, id).Err? ==> r == Err(db.ResourceGet(ctx, id).error)
    ensures db.ResourceGet(ctx, id).Ok? ==>
          && r.Ok? && fresh(r.value) && r.value.kind == ResourceObj
          && r.value.attrs == Loaded(ResourceObj, db.ResourceGet(ctx, id).value) && r.value.changes == {}
  {
    r := Load(ResourceObj, ctx, db.ResourceGet(ctx, id));
  }

  /** `Resource.get_by_id_at_source(context, id_at_source)`. */
  method ResourceGetByIdAtSource(db: Database, ctx: Option<Context>, idAtSource: Value) returns (r: Result<VersionedObject>)
    ensures db.ResourceGetByIdAtSource(ctx, idAtSource).Err? ==> r == Err(db.ResourceGetByIdAtSource(ctx, idAtSource).error)
    ensures db.ResourceGetByIdAtSource(ctx, idAtSource).Ok? ==>
          && r.Ok? && fresh(r.value) && r.value.kind == ResourceObj
          && r.value.attrs == Loaded(ResourceObj, db.ResourceGetByIdAtSource(ctx, idAtSource).value)
          && r.value.changes == {}
  {
    r := Load(ResourceObj, ctx, db.ResourceGetByIdAtSource(ctx, idAtSource));
  }

  /** `Hypervisor.get_by_name(context, name)`. */
  method HypervisorGetByName(db: Database, ctx: Option<Context>, name: Value) returns (r: Result<VersionedObject>)
    ensures db.HypervisorGetByName(ctx, name).Err? ==> r == Err(db.HypervisorGetByName(ctx, name).error)
    ensures db.HypervisorGetByName(ctx, name).Ok? ==>
          && r.Ok? && fresh(r.value) && r.value.kind == HypervisorObj
          && r.value.attrs == Loaded(HypervisorObj, db.HypervisorGetByName(ctx, name).value) && r.value.changes == {}
          && r.value.context == ctx
  {
    r := Load(HypervisorObj, ctx, db.HypervisorGetByName(ctx, name));
  }

  /** `Migration.get(context, id)`. */
  method MigrationGet(db: Database, ctx: Option<Context>, id: Value) returns (r: Result<VersionedObject>)
    ensures db.MigrationGet(ctx, id).Err? ==> r == Err(db.MigrationGet(ctx, id).error)
    ensures db.MigrationGet(ctx, id).Ok? ==>
          && r.Ok? && fresh(r.value) && r.value.kind == MigrationObj
          && r.value.attrs == Loaded(MigrationObj, db.MigrationGet(ctx, id).value) && r.value.changes == {}
  {
    r := Load(MigrationObj, ctx, db.MigrationGet(ctx, id));
  }

  // ---------------------------------------------------------------------
  // the list classes
  // ---------------------------------------------------------------------

  /** `obj_make_list`: the attributes of one object per row, in the rows' order. */
  function LoadedAll(kind: ObjKind, rows: seq<Dict>): (objs: seq<Dict>)
    ensures |objs| == |rows|
    ensures forall i :: 0 <= i < |rows| ==> objs[i] == Loaded(kind, rows[i])
  {
    seq(|rows|, i requires 0 <= i < |rows| => Loaded(kind, rows[i]))
  }

  /** A listing's objects, or its error. */
  function LoadList(kind: ObjKind, rows: Result<seq<Dict>>): (r: Result<seq<Dict>>)
    ensures rows.Err? ==> r == Err(rows.error)
    ensures rows.Ok? ==>
          && r.Ok? && |r.value| == |rows.value|
          && forall i :: 0 <= i < |rows.value| ==> r.value[i] == Loaded(kind, rows.value[i])
  {
    if rows.Err? then Err(rows.error) else Ok(LoadedAll(kind, rows.value))
  }

  /**
   * `ResourceList.get_all(context, filters)` and
   * `MigrationList.get_all(context, filters)`: the filters reach the
   * backend as its `inactive` flag, so any non-empty filters list
   * deleted rows too.
   */
  function ResourceListGetAll(db: Database, ctx: Option<Context>, filters: Option<Dict>): (r: Result<seq<Dict>>)
    reads db
    ensures r == LoadList(ResourceObj, db.ResourceGetAll(ctx, filters.Some? && |filters.value| > 0))
  {
    LoadList(ResourceObj, db.ResourceGetAll(ctx, filters.Some? && |filters.value| > 0))
  }

  function MigrationListGetAll(db: Database, ctx: Option<Context>, filters: Option<Dict>): (r: Result<seq<Dict>>)
    reads db
    ensures r == LoadList(MigrationObj, db.MigrationGetAll(ctx, filters.Some? && |filters.value| > 0))
  {
    LoadList(MigrationObj, db.MigrationGetAll(ctx, filters.Some? && |filters.value| > 0))
  }

  /** Non-empty filters make the listings include soft-deleted rows of every kind. */
  lemma FiltersListDeleted(db: Database, ctx: Context, filters: Dict)
    requires |filters| > 0 && RequireContext(Some(ctx)).Pass?
    ensures ResourceListGetAll(db, Some(ctx), Some(filters)).Ok?
    ensures |ResourceListGetAll(db, Some(ctx), Some(filters)).value| == |db.resources|
    ensures MigrationListGetAll(db, Some(ctx), Some(filters)).Ok?
    ensures |MigrationListGetAll(db, Some(ctx), Some(filters)).value| == |db.migrations|
  {
    QueryEverything(db.resources);
    QueryEverything(db.migrations);
  }

  /** Without conditions, a listing that shows deleted rows lists every row. */
  lemma {:induction false} QueryEverything(rows: seq<Dict>)
    ensures Query(rows, Everything, map[]) == rows
    decreases |rows|
  {
    if rows != [] {
      QueryEverything(rows[..|rows| - 1]);
      assert Selected(Everything, map[], rows[|rows| - 1]);
      assert rows[..|rows| - 1] + [rows[|rows| - 1]] == rows;
    }
  }

  /** `ResourceList.get_all_by_type(context, type)`. */
  function ResourceListGetAllByType(db: Database, ctx: Option<Context>, resourceType: Value): (r: Result<seq<Dict>>)
    reads db
    ensures r == LoadList(ResourceObj, db.ResourceGetAllByType(ctx, resourceType))
  {
    LoadList(ResourceObj, db.ResourceGetAllByType(ctx, resourceType))
  }

  /** The AttributeError of calling a function the database module does not define. */
  function MissingDbFunction(name: string): Exc
  {
    Exc(AttributeError, "'module' object has no attribute '" + name + "'")
  }

  /** `ResourceList.get_all_by_source`: the backend defines no `resource_get_all_by_source`. */
  function ResourceListGetAllBySource(): (r: Result<seq<Dict>>)
    ensures r.Err? && r.error.kind == AttributeError
  {
    Err(MissingDbFunction("resource_get_all_by_source"))
  }

  /** `HypervisorList.get_all_by_host`: the backend defines no `hypervisor_get_all_by_host`. */
  function HypervisorListGetAllByHost(): (r: Result<seq<Dict>>)
    ensures r.Err? && r.error.kind == AttributeError
  {
    Err(MissingDbFunction("hypervisor_get_all_by_host"))
  }

  /** `ResourceList.delete_all_by_source(context, source)`. */
  method ResourceListDeleteAllBySource(db: Database, ctx: Option<Context>, source: Value, now: int) returns (out: Outcome)
    requires db.Valid()
    modifies db
    ensures db.Valid()
    ensures RequireAdminContext(ctx).Fail? ==> out == Fail(RequireAdminContext(ctx).error) && unchanged(db)
    ensures out.Fail? ==> unchanged(db)
    ensures out.Pass? <==> RequireAdminContext(ctx).Pass? && ReadDeletedMode(ctx.value, None).Ok?
    ensures out.Pass? ==> db.SoftDeletedWhere(ReadDeletedMode(ctx.value, None).value, map["source_hypervisor" := source], now)
  {
    out := db.ResourceDeleteAllBySource(ctx, source, now);
  }

  /**
   * `HypervisorList.get_all(context, filters, ...)`: `all_tenants` is
   * popped from the filters (the caller sees the dict without it), then
   * the backend is called with seven positional arguments it does not
   * take, a TypeError; None filters fail on the pop. The backend
   * function is wrapped by `require_context`, whose guard runs on the
   * arguments before the call: a context that is neither admin nor user
   * gets its NotAuthorized before any TypeError.
   */
  function HypervisorListGetAll(ctx: Option<Context>, filters: Option<Dict>): (r: (Option<Dict>, Result<seq<Dict>>))
    ensures filters.None? ==> r.0.None? && r.1.Err? && r.1.error.kind == AttributeError
    ensures filters.Some? ==> r.0 == Some(filters.value - {"all_tenants"}) && r.1.Err?
    ensures filters.Some? && RequireContext(ctx).Fail? ==> r.1 == Err(RequireContext(ctx).error)
    ensures filters.Some? && ctx.Some? && !ctx.value.isAdmin && !IsUserContext(ctx) ==> r.1.error.kind == NotAuthorized
    ensures filters.Some? && RequireContext(ctx).Pass? ==> r.1.error.kind == TypeError
  {
    if filters.None? then (None, Err(Exc(AttributeError, "'NoneType' object has no attribute 'pop'")))
    else (Some(filters.value - {"all_tenants"}),
          if RequireContext(ctx).Fail? then Err(RequireContext(ctx).error)
          else Err(Exc(TypeError, "hypervisor_get_all() takes at most 2 arguments (7 given)")))
  }
}
