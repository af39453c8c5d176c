/**
 * guts/db/sqlalchemy/api.py: request-context checks, the `read_deleted`
 * visibility of soft-deleted rows, and the create / get / update / delete
 * operations on the hypervisor, resource, migration and service tables.
 *
 * A table is a sequence of rows; a row is the dictionary of the values
 * assigned to it. Every committed statement is appended to the ghost log
 * `writes`, so callers can state the order of their writes. The clock
 * (`timeutils.utcnow()`) and fresh identifiers (`uuid.uuid4()`) are
 * parameters.
 */
module Db {
  import opened Wrappers
  import opened PyValues
  import opened Exceptions
  import Strings

  /** A request context; `Option<Context>` is absent for a missing context. */
  datatype Context = Context(isAdmin: bool, userId: Option<string>, projectId: Option<string>, readDeleted: string)

  /** An attribute that is set and truthy (`if context.user_id:`). */
  predicate Given(o: Option<string>)
  {
    o.Some? && o.value != ""
  }

  // ---------------------------------------------------------------------
  // context checks
  // ---------------------------------------------------------------------

  /** `is_admin_context`: an error ("die") for a missing context. */
  function IsAdminContext(ctx: Option<Context>): (r: Result<bool>)
    ensures r.Err? <==> ctx.None?
    ensures r.Ok? ==> r.value == ctx.value.isAdmin
  {
    if ctx.None? then Err(Exc(PlainException, "die")) else Ok(ctx.value.isAdmin)
  }

  /** `is_user_context`: a non-admin context naming both a user and a project. */
  predicate IsUserContext(ctx: Option<Context>)
  {
    ctx.Some? && !ctx.value.isAdmin && Given(ctx.value.userId) && Given(ctx.value.projectId)
  }

  /** `authorize_project_context`: a user context may only touch its own project. */
  function AuthorizeProjectContext(ctx: Option<Context>, projectId: Option<string>): (r: Outcome)
    ensures r.Fail? <==> IsUserContext(ctx) && ctx.value.projectId != projectId
    ensures r.Fail? ==> r.error.kind == NotAuthorized
  {
    if IsUserContext(ctx) then
      if !Given(ctx.value.projectId) then Raise(NotAuthorized, "")
      else if ctx.value.projectId != projectId then Raise(NotAuthorized, "")
      else Pass
    else Pass
  }

  /** `authorize_user_context`: a user context may only touch its own user. */
  function AuthorizeUserContext(ctx: Option<Context>, userId: Option<string>): (r: Outcome)
    ensures r.Fail? <==> IsUserContext(ctx) && ctx.value.userId != userId
    ensures r.Fail? ==> r.error.kind == NotAuthorized
  {
    if IsUserContext(ctx) then
      if !Given(ctx.value.userId) then Raise(NotAuthorized, "")
      else if ctx.value.userId != userId then Raise(NotAuthorized, "")
      else Pass
    else Pass
  }

  /** The check `@require_admin_context` makes before the wrapped call. */
  function RequireAdminContext(ctx: Option<Context>): (r: Outcome)
    ensures r.Pass? <==> ctx.Some? && ctx.value.isAdmin
    ensures ctx.None? ==> r.Fail? && r.error.kind == PlainException
    ensures ctx.Some? && !ctx.value.isAdmin ==> r.Fail? && r.error.kind == AdminRequired
  {
    var admin := IsAdminContext(ctx);
    if admin.Err? then Fail(admin.error)
    else if !admin.value then Raise(AdminRequired, "")
    else Pass
  }

  /** The check `@require_context` makes: an admin or a user context. */
  function RequireContext(ctx: Option<Context>): (r: Outcome)
    ensures r.Pass? <==> ctx.Some? && (ctx.value.isAdmin || IsUserContext(ctx))
    ensures ctx.None? ==> r.Fail? && r.error.kind == PlainException
    ensures ctx.Some? && !ctx.value.isAdmin && !IsUserContext(ctx) ==> r.Fail? && r.error.kind == NotAuthorized
  {
    var admin := IsAdminContext(ctx);
    if admin.Err? then Fail(admin.error)
    else if !admin.value && !IsUserContext(ctx) then Raise(NotAuthorized, "")
    else Pass
  }

  // ---------------------------------------------------------------------
  // model_query: which rows a query sees
  // ---------------------------------------------------------------------

  /** `read_deleted`: "no" hides soft-deleted rows, "yes" shows all, "only" shows only them. */
  datatype Visibility = Live | Everything | DeletedOnly

  /** The visibility a query runs under: a non-empty override, else the context's own. */
  function ReadDeletedMode(ctx: Context, override: Option<string>): (r: Result<Visibility>)
    ensures var mode := if Given(override) then override.value else ctx.readDeleted;
            && (r == Ok(Live) <==> mode == "no")
            && (r == Ok(Everything) <==> mode == "yes")
            && (r == Ok(DeletedOnly) <==> mode == "only")
            && (r.Err? ==> r.error.kind == PlainException)
  {
    var mode := if Given(override) then override.value else ctx.readDeleted;
    if mode == "no" then Ok(Live)
    else if mode == "yes" then Ok(Everything)
    else if mode == "only" then Ok(DeletedOnly)
    else Err(Exc(PlainException, "Unrecognized read_deleted value '" + mode + "'"))
  }

  /** Whether a row passes the `deleted` filter of a visibility. */
  predicate Shows(vis: Visibility, row: Dict)
  {
    match vis
    case Live => Get(row, "deleted") == VBool(false)
    case Everything => true
    case DeletedOnly => Get(row, "deleted") == VBool(true)
  }

  /** Whether a row passes the visibility and every `filter_by(key=value)`. */
  predicate Selected(vis: Visibility, conds: Dict, row: Dict)
  {
    Shows(vis, row) && forall key :: key in conds ==> Get(row, key) == conds[key]
  }

  /** `query.all()`: the selected rows, in table order. */
  function Query(rows: seq<Dict>, vis: Visibility, conds: Dict): (r: seq<Dict>)
    ensures |r| <= |rows|
    ensures forall i :: 0 <= i < |r| ==> r[i] in rows && Selected(vis, conds, r[i])
    ensures forall i :: 0 <= i < |rows| && Selected(vis, conds, rows[i]) ==> rows[i] in r
    decreases |rows|
  {
    if rows == [] then []
    else
      var front := Query(rows[..|rows| - 1], vis, conds);
      var last := rows[|rows| - 1];
      assert forall i :: 0 <= i < |rows| - 1 ==> rows[i] == rows[..|rows| - 1][i];
      if Selected(vis, conds, last) then front + [last] else front
  }

  /** `query.first()`: the position of the first selected row. */
  function FirstIndex(rows: seq<Dict>, vis: Visibility, conds: Dict): (r: Option<nat>)
    ensures r.Some? ==> r.value < |rows| && Selected(vis, conds, rows[r.value])
    ensures r.Some? ==> forall j :: 0 <= j < r.value ==> !Selected(vis, conds, rows[j])
    ensures r.None? ==> forall j :: 0 <= j < |rows| ==> !Selected(vis, conds, rows[j])
    decreases |rows|
  {
    if rows == [] then None
    else if Selected(vis, conds, rows[0]) then Some(0)
    else
      var rest := FirstIndex(rows[1..], vis, conds);
      assert forall j :: 1 <= j < |rows| ==> rows[j] == rows[1..][j - 1];
      if rest.None? then None else Some(rest.value + 1)
  }

  /** `first()` is the head of `all()`: nothing exactly when no row is selected. */
  lemma {:induction false} FirstIsHeadOfAll(rows: seq<Dict>, vis: Visibility, conds: Dict)
    ensures FirstIndex(rows, vis, conds).None? <==> Query(rows, vis, conds) == []
    ensures FirstIndex(rows, vis, conds).Some? ==>
              Query(rows, vis, conds)[0] == rows[FirstIndex(rows, vis, conds).value]
    decreases |rows|
  {
    if rows != [] {
      var init := rows[..|rows| - 1];
      FirstIsHeadOfAll(init, vis, conds);
      var first := FirstIndex(init, vis, conds);
      if first.Some? {
        assert rows[first.value] == init[first.value];
        assert forall j :: 0 <= j < first.value ==> rows[j] == init[j];
        assert FirstIndex(rows, vis, conds) == first by {
          FirstIndexAgrees(rows, init, vis, conds, first.value);
        }
      } else {
        assert forall j :: 0 <= j < |init| ==> rows[j] == init[j];
        if Selected(vis, conds, rows[|rows| - 1]) {
          FirstIndexAgrees(rows, rows, vis, conds, |rows| - 1);
        } else {
          assert forall j :: 0 <= j < |rows| ==> !Selected(vis, conds, rows[j]);
        }
      }
    }
  }

  /** The first selected row is found at `k` when `k` is selected and nothing before it is. */
  lemma FirstIndexAgrees(rows: seq<Dict>, other: seq<Dict>, vis: Visibility, conds: Dict, k: nat)
    requires k < |rows| && k < |other| && rows[k] == other[k] && Selected(vis, conds, rows[k])
    requires forall j :: 0 <= j < k ==> rows[j] == other[j] && !Selected(vis, conds, rows[j])
    ensures FirstIndex(rows, vis, conds) == Some(k)
  {
    var f := FirstIndex(rows, vis, conds);
    assert f.Some?;
    assert !(f.value < k);
    assert !(f.value > k);
  }

  // ---------------------------------------------------------------------
  // tables and rows
  // ---------------------------------------------------------------------

  datatype Table = Hypervisors | Resources | Migrations | Services

  /** The mapped columns of each model class (guts/db/sqlalchemy/models.py). */
  function Columns(t: Table): (cols: set<string>)
    ensures {"id", "created_at", "updated_at", "deleted_at", "deleted"} <= cols
  {
    var base := {"created_at", "updated_at", "deleted_at", "deleted", "id"};
    match t
    case Hypervisors => base + {"name", "driver", "type", "properties", "credentials", "capabilities",
                                "exclude", "registered_host"}
    case Resources => base + {"name", "id_at_source", "type", "properties", "migrated", "source_hypervisor"}
    case Migrations => base + {"name", "description", "migration_status", "migration_event", "resource_id",
                               "destination_hypervisor"}
    case Services => base + {"host", "binary", "topic", "report_count", "disabled", "disabled_reason",
                             "modified_at", "rpc_current_version", "rpc_available_version",
                             "object_current_version", "object_available_version"}
  }

  /** What a flush stores of an object: its column attributes; any other attribute is lost. */
  function Stored(t: Table, obj: Dict): (row: Dict)
    ensures row.Keys == obj.Keys * Columns(t)
    ensures forall key :: key in row ==> row[key] == obj[key]
  {
    map key | key in obj.Keys * Columns(t) :: obj[key]
  }

  /** A committed statement: a row inserted, or values assigned to the row with an id. */
  datatype Write = Inserted(table: Table, row: Dict) | Updated(table: Table, id: Value, values: Dict)

  /** Every row has an `id`, no two rows share one (the primary key), and only columns are stored. */
  predicate Tabular(t: Table, rows: seq<Dict>)
  {
    && (forall i :: 0 <= i < |rows| ==> "id" in rows[i] && rows[i].Keys <= Columns(t))
    && (forall i, j :: 0 <= i < j < |rows| ==> rows[i]["id"] != rows[j]["id"])
  }

  /** Whether some row other than the one at `skip` has the given id. */
  predicate IdTaken(rows: seq<Dict>, id: Value, skip: int)
  {
    exists j :: 0 <= j < |rows| && j != skip && Get(rows[j], "id") == id
  }

  /** Appending a row of columns whose id is free keeps the table well formed. */
  lemma AppendKeepsTabular(t: Table, rows: seq<Dict>, row: Dict)
    requires Tabular(t, rows) && "id" in row && row.Keys <= Columns(t) && !IdTaken(rows, row["id"], -1)
    ensures Tabular(t, rows + [row])
  {
    var r := rows + [row];
    forall i, j | 0 <= i < j < |r| ensures r[i]["id"] != r[j]["id"] {
      if j == |rows| {
        assert Get(rows[i], "id") == rows[i]["id"];
      }
    }
  }

  /** Replacing a row by one of columns whose id no other row has keeps the table well formed. */
  lemma ReplaceKeepsTabular(t: Table, rows: seq<Dict>, k: nat, row: Dict)
    requires Tabular(t, rows) && k < |rows| && "id" in row && row.Keys <= Columns(t) && !IdTaken(rows, row["id"], k)
    ensures Tabular(t, rows[k := row])
  {
    var r := rows[k := row];
    forall a, b | 0 <= a < b < |r| ensures r[a]["id"] != r[b]["id"] {
      if a == k { assert Get(rows[b], "id") == rows[b]["id"]; }
      if b == k { assert Get(rows[a], "id") == rows[a]["id"]; }
    }
  }

  /** `if not values.get('id'): values['id'] = str(uuid.uuid4())`. */
  function WithId(values: Dict, freshId: string): (r: Dict)
    ensures r.Keys == values.Keys + {"id"}
    ensures forall key :: key in values && key != "id" ==> r[key] == values[key]
    ensures r["id"] == if Truthy(Get(values, "id")) then values["id"] else VStr(freshId)
  {
    if Truthy(Get(values, "id")) then values else values["id" := VStr(freshId)]
  }

  /** Column defaults filled in on insert: `created_at`, `deleted`, and each table's own. */
  function Defaults(t: Table, now: int): (d: Dict)
    ensures d.Keys <= Columns(t)
    ensures "created_at" in d && d["created_at"] == VTime(now, None) && "deleted" in d && d["deleted"] == VBool(false)
  {
    var common := map["created_at" := VTime(now, None), "deleted" := VBool(false)];
    match t
    case Resources => common["migrated" := VBool(false)]
    case Services => common["report_count" := VInt(0)]["disabled" := VBool(false)]
    case _ => common
  }

  /**
   * A loaded row after `ref.update(values)` and the flush: the values
   * assigned, and `updated_at` stamped with `now` when a column changed,
   * unless the values set it or `pinned` holds
   * (`'updated_at': literal_column('updated_at')`).
   */
  function Refreshed(t: Table, row: Dict, values: Dict, now: int, pinned: bool): (r: Dict)
    ensures forall key :: key in values ==> key in r && r[key] == values[key]
    ensures forall key :: key in row && key !in values && key != "updated_at" ==> key in r && r[key] == row[key]
    ensures r.Keys <= row.Keys + values.Keys + {"updated_at"}
    ensures (pinned || "updated_at" in values || Stored(t, row + values) == row) ==> (r == row + values)
    ensures !(pinned || "updated_at" in values || Stored(t, row + values) == row) ==> ("updated_at" in r && r["updated_at"] == VTime(now, None))
  {
    var merged := row + values;
    if Stored(t, merged) == row || "updated_at" in values || pinned then merged
    else merged["updated_at" := VTime(now, None)]
  }

  /** The values a soft delete assigns. */
  function SoftDeleteValues(now: int): (d: Dict)
    ensures d.Keys == {"deleted", "deleted_at"} && d["deleted"] == VBool(true)
  {
    map["deleted" := VBool(true), "deleted_at" := VTime(now, None)]
  }

  /** A soft delete changes neither the id nor the set of stored columns. */
  lemma SoftDeleteKeepsRow(t: Table, row: Dict, now: int)
    requires "id" in row && row.Keys <= Columns(t)
    ensures Stored(t, Refreshed(t, row, SoftDeleteValues(now), now, true)) == row + SoftDeleteValues(now)
    ensures (row + SoftDeleteValues(now))["id"] == row["id"]
  {
    var sd := row + SoftDeleteValues(now);
    assert Refreshed(t, row, SoftDeleteValues(now), now, true) == sd;
    assert Stored(t, sd) == sd;
  }

  // ---------------------------------------------------------------------
  // queries: model_query, filter_by, first, all
  // ---------------------------------------------------------------------

  /**
   * The visibility a query runs under, after the decorator's guard,
   * `model_query`'s `read_deleted` check and `filter_by`'s check that every
   * filtered key is a column (an InvalidRequestError otherwise).
   */
  function Visible(t: Table, ctx: Option<Context>, guard: Outcome, override: Option<string>, conds: Dict)
    : (r: Result<Visibility>)
    ensures guard.Fail? ==> r == Err(guard.error)
    ensures r.Ok? <==> guard.Pass? && ctx.Some? && ReadDeletedMode(ctx.value, override).Ok? && conds.Keys <= Columns(t)
    ensures r.Ok? ==> r == ReadDeletedMode(ctx.value, override)
    ensures guard.Pass? && ctx.Some? && ReadDeletedMode(ctx.value, override).Err? ==> r == ReadDeletedMode(ctx.value, override)
    ensures guard.Pass? && ctx.Some? && ReadDeletedMode(ctx.value, override).Ok? && !(conds.Keys <= Columns(t)) ==>
              r.Err? && r.error.kind == InvalidRequestError
  {
    if guard.Fail? then Err(guard.error)
    else if ctx.None? then Err(Exc(AttributeError, "'NoneType' object has no attribute 'read_deleted'"))
    else
      var mode := ReadDeletedMode(ctx.value, override);
      if mode.Err? then mode
      else if !(conds.Keys <= Columns(t)) then Err(Exc(InvalidRequestError, "Entity has no such property"))
      else mode
  }

  /** The position of the row `first()` returns, or the error the lookup raises when there is none. */
  function Locate(t: Table, rows: seq<Dict>, ctx: Option<Context>, guard: Outcome, override: Option<string>,
                  conds: Dict, notFound: Exc): (r: Result<nat>)
    ensures Visible(t, ctx, guard, override, conds).Err? ==> r == Err(Visible(t, ctx, guard, override, conds).error)
    ensures r.Ok? ==> var vis := Visible(t, ctx, guard, override, conds);
              && vis.Ok? && r.value < |rows| && Selected(vis.value, conds, rows[r.value])
              && forall j :: 0 <= j < r.value ==> !Selected(vis.value, conds, rows[j])
    ensures r.Err? && Visible(t, ctx, guard, override, conds).Ok? ==>
              r == Err(notFound) && forall j :: 0 <= j < |rows| ==> !Selected(Visible(t, ctx, guard, override, conds).value, conds, rows[j])
  {
    var vis := Visible(t, ctx, guard, override, conds);
    if vis.Err? then Err(vis.error)
    else
      var first := FirstIndex(rows, vis.value, conds);
      if first.None? then Err(notFound) else Ok(first.value)
  }

  /** What a lookup promises: the guard's error, the row found (which matches every filter), or the not-found error exactly when no visible row matches. */
  predicate LookupSpec(r: Result<Dict>, t: Table, rows: seq<Dict>, ctx: Option<Context>, guard: Outcome,
                       override: Option<string>, conds: Dict, notFound: Exc)
  {
    && (guard.Fail? ==> r == Err(guard.error))
    && (r.Ok? ==> r.value in rows && forall key :: key in conds ==> Get(r.value, key) == conds[key])
    && (Visible(t, ctx, guard, override, conds).Err? ==> r == Err(Visible(t, ctx, guard, override, conds).error))
    && (Visible(t, ctx, guard, override, conds).Ok? ==>
          var vis := Visible(t, ctx, guard, override, conds).value;
          && (r.Err? <==> forall j :: 0 <= j < |rows| ==> !Selected(vis, conds, rows[j]))
          && (r.Err? ==> r.error == notFound)
          && (r.Ok? ==> Shows(vis, r.value)))
  }

  /** What a listing promises: the guard's error, or exactly the visible rows that match every filter. */
  predicate SelectSpec(r: Result<seq<Dict>>, t: Table, rows: seq<Dict>, ctx: Option<Context>, guard: Outcome,
                       override: Option<string>, conds: Dict)
  {
    && (guard.Fail? ==> r == Err(guard.error))
    && (Visible(t, ctx, guard, override, conds).Err? ==> r == Err(Visible(t, ctx, guard, override, conds).error))
    && (Visible(t, ctx, guard, override, conds).Ok? ==>
          var vis := Visible(t, ctx, guard, override, conds).value;
          && r.Ok?
          && (forall i :: 0 <= i < |r.value| ==> r.value[i] in rows && Selected(vis, conds, r.value[i]))
          && (forall j :: 0 <= j < |rows| && Selected(vis, conds, rows[j]) ==> rows[j] in r.value))
  }

  function Lookup(t: Table, rows: seq<Dict>, ctx: Option<Context>, guard: Outcome, override: Option<string>,
                  conds: Dict, notFound: Exc): (r: Result<Dict>)
    ensures LookupSpec(r, t, rows, ctx, guard, override, conds, notFound)
  {
    var found := Locate(t, rows, ctx, guard, override, conds, notFound);
    if found.Err? then Err(found.error) else Ok(rows[found.value])
  }

  function Select(t: Table, rows: seq<Dict>, ctx: Option<Context>, guard: Outcome, override: Option<string>,
                  conds: Dict): (r: Result<seq<Dict>>)
    ensures SelectSpec(r, t, rows, ctx, guard, override, conds)
  {
    var vis := Visible(t, ctx, guard, override, conds);
    if vis.Err? then Err(vis.error) else Ok(Query(rows, vis.value, conds))
  }

  /** `"yes" if inactive else "no"`. */
  function InactiveOverride(inactive: bool): Option<string>
  {
    if inactive then Some("yes") else Some("no")
  }

  /** The error a failed lookup raises, carrying the value looked for. */
  function NotFoundError(kind: Kind, key: Value): Exc
  {
    Exc(kind, Render(key))
  }

  /** The class `_<table>_get` raises. */
  function NotFoundKind(t: Table): Kind
  {
    match t
    case Hypervisors => ResourceNotFound
    case Resources => ResourceNotFound
    case Migrations => MigrationNotFound
    case Services => ServiceNotFound
  }

  /** The decorator of `_<table>_get`: `_service_get` is admin only, the others take any context. */
  function LookupGuard(t: Table, ctx: Option<Context>): Outcome
  {
    if t == Services then RequireAdminContext(ctx) else RequireContext(ctx)
  }

  // ---------------------------------------------------------------------
  // _get_get_method: model class name to getter name
  // ---------------------------------------------------------------------

  predicate IsUpper(c: char) { 'A' <= c <= 'Z' }
  predicate IsLower(c: char) { 'a' <= c <= 'z' }

  /** Length of the run of lower-case letters at the start of `s`. */
  function LowerRun(s: string): (n: nat)
    ensures n <= |s|
    ensures forall k :: 0 <= k < n ==> IsLower(s[k])
    ensures n < |s| ==> !IsLower(s[n])
    decreases |s|
  {
    if s == [] || !IsLower(s[0]) then 0 else 1 + LowerRun(s[1..])
  }

  /** `re.sub('(.)([A-Z][a-z]+)', r'\1_\2', s)`: `.` is any character but a newline. */
  function CamelPassOne(s: string): string
    decreases |s|
  {
    if |s| < 3 then s
    else if s[0] != '\n' && IsUpper(s[1]) && IsLower(s[2]) then
      var n := LowerRun(s[2..]);
      [s[0], '_'] + s[1..2 + n] + CamelPassOne(s[2 + n..])
    else [s[0]] + CamelPassOne(s[1..])
  }

  /** `re.sub('([a-z0-9])([A-Z])', r'\1_\2', s)`. */
  function CamelPassTwo(s: string): string
    decreases |s|
  {
    if |s| < 2 then s
    else if (IsLower(s[0]) || Strings.IsDigit(s[0])) && IsUpper(s[1]) then
      [s[0], '_', s[1]] + CamelPassTwo(s[2..])
    else [s[0]] + CamelPassTwo(s[1..])
  }

  /** The name `_get_get_method` looks up for a model class of the given name. */
  function GetMethodName(modelName: string): string
  {
    Strings.Lower(CamelPassTwo(CamelPassOne(modelName))) + "_get"
  }

  /** `s` with every `_` removed. */
  function Unscored(s: string): string
    decreases |s|
  {
    if s == [] then [] else (if s[0] == '_' then [] else [s[0]]) + Unscored(s[1..])
  }

  lemma {:induction false} UnscoredConcat(a: string, b: string)
    ensures Unscored(a + b) == Unscored(a) + Unscored(b)
    decreases |a|
  {
    if a == [] {
      assert a + b == b;
    } else {
      assert (a + b)[0] == a[0];
      assert (a + b)[1..] == a[1..] + b;
      UnscoredConcat(a[1..], b);
    }
  }

  /** Removing the `_` that a string holds none of gives the string back. */
  lemma {:induction false} UnscoredPlain(s: string)
    requires forall k :: 0 <= k < |s| ==> s[k] != '_'
    ensures Unscored(s) == s
    decreases |s|
  {
    if s != [] {
      UnscoredPlain(s[1..]);
    }
  }

  lemma UnscoredCons(c: char, s: string)
    ensures Unscored([c] + s) == (if c == '_' then [] else [c]) + Unscored(s)
  {
    assert ([c] + s)[0] == c;
    assert ([c] + s)[1..] == s;
  }

  /** An underscore inserted after a character disappears again. */
  lemma UnscoredInsert(c: char, w: string, p: string, rest: string)
    requires Unscored(p) == Unscored(rest)
    ensures Unscored([c, '_'] + w + p) == Unscored([c] + w + rest)
  {
    UnscoredConcat([c, '_'] + w, p);
    UnscoredConcat([c, '_'], w);
    assert [c, '_'] == [c] + ['_'];
    UnscoredConcat([c], ['_']);
    UnscoredCons('_', []);
    assert ['_'] == ['_'] + [];
    UnscoredConcat([c] + w, rest);
    UnscoredConcat([c], w);
  }

  /** Where the first pass matches at the start: the character, `_`, the capitalised word, then the rest passed on. */
  lemma PassOneWord(s: string)
    requires |s| >= 3 && s[0] != '\n' && IsUpper(s[1]) && IsLower(s[2])
    ensures var n := LowerRun(s[2..]);
            && CamelPassOne(s) == [s[0], '_'] + s[1..2 + n] + CamelPassOne(s[2 + n..])
            && s == [s[0]] + s[1..2 + n] + s[2 + n..]
  {
    SplitAfterWord(s, LowerRun(s[2..]));
  }

  /** A string is its first character, the next `n + 1` characters, and the rest. */
  lemma SplitAfterWord(s: string, n: nat)
    requires 2 + n <= |s|
    ensures s == [s[0]] + s[1..2 + n] + s[2 + n..]
  {
    assert s[..2 + n] == [s[0]] + s[1..2 + n];
    assert s == s[..2 + n] + s[2 + n..];
  }

  /** The first pass only inserts underscores. */
  lemma {:induction false} PassOneInsertsUnderscores(s: string)
    ensures Unscored(CamelPassOne(s)) == Unscored(s)
    decreases |s|
  {
    if |s| >= 3 {
      if s[0] != '\n' && IsUpper(s[1]) && IsLower(s[2]) {
        var n := LowerRun(s[2..]);
        var word := s[1..2 + n];
        var rest := s[2 + n..];
        PassOneInsertsUnderscores(rest);
        PassOneWord(s);
        UnscoredInsert(s[0], word, CamelPassOne(rest), rest);
      } else {
        PassOneInsertsUnderscores(s[1..]);
        UnscoredCons(s[0], CamelPassOne(s[1..]));
        UnscoredCons(s[0], s[1..]);
        assert [s[0]] + s[1..] == s;
      }
    }
  }

  /** The second pass only inserts underscores. */
  lemma {:induction false} PassTwoInsertsUnderscores(s: string)
    ensures Unscored(CamelPassTwo(s)) == Unscored(s)
    decreases |s|
  {
    if |s| >= 2 {
      if (IsLower(s[0]) || Strings.IsDigit(s[0])) && IsUpper(s[1]) {
        PassTwoInsertsUnderscores(s[2..]);
        assert CamelPassTwo(s) == [s[0], '_'] + [s[1]] + CamelPassTwo(s[2..]);
        UnscoredInsert(s[0], [s[1]], CamelPassTwo(s[2..]), s[2..]);
        assert s == [s[0]] + [s[1]] + s[2..];
      } else {
        PassTwoInsertsUnderscores(s[1..]);
        UnscoredCons(s[0], CamelPassTwo(s[1..]));
        UnscoredCons(s[0], s[1..]);
        assert [s[0]] + s[1..] == s;
      }
    }
  }

  /** The getter name is the class name, passed through underscore insertions, lower-cased, plus `_get`. */
  lemma GetMethodNameShape(modelName: string)
    ensures var snake := CamelPassTwo(CamelPassOne(modelName));
            && Unscored(snake) == Unscored(modelName)
            && GetMethodName(modelName) == Strings.Lower(snake) + "_get"
  {
    PassOneInsertsUnderscores(modelName);
    PassTwoInsertsUnderscores(CamelPassOne(modelName));
  }

  /** A name with no upper-case letter after its first character passes through both substitutions unchanged. */
  lemma {:induction false} CamelPassesKeep(s: string)
    requires forall k :: 1 <= k < |s| ==> !IsUpper(s[k])
    ensures CamelPassOne(s) == s && CamelPassTwo(s) == s
    decreases |s|
  {
    if |s| >= 2 {
      CamelPassesKeep(s[1..]);
      assert [s[0]] + s[1..] == s;
    }
  }

  /** The public `*_get` functions of the module, which `globals().get` can return. */
  const Getters: set<string> := {"hypervisor_get", "resource_get", "migration_get", "service_get"}

  /** The getter name of a model class whose name has no inner capital: its lower-cased name plus `_get`. */
  lemma SimpleGetterName(modelName: string)
    requires forall k :: 1 <= k < |modelName| ==> !IsUpper(modelName[k])
    ensures GetMethodName(modelName) == Strings.Lower(modelName) + "_get"
  {
    CamelPassesKeep(modelName);
  }

  /** Lower-cased names of eleven letters, or of nine or ten letters starting unlike the getter of that length, are no getter's. */
  lemma UnknownGetter(name: string)
    requires |name| == 11 || (|name| == 9 && Strings.LowerChar(name[0]) != 'm')
             || (|name| == 10 && Strings.LowerChar(name[0]) != 'h')
    ensures Strings.Lower(name) + "_get" !in Getters
  {
    var g := Strings.Lower(name) + "_get";
    assert |g| == |name| + 4;
    assert g[0] == Strings.LowerChar(name[0]);
    assert "migration_get"[0] == 'm' && "hypervisor_get"[0] == 'h';
  }

  /** The ORM class Hypervisors resolves to a plural name no function has. */
  lemma HypervisorsGetterMissing()
    ensures GetMethodName("Hypervisors") !in Getters
  {
    var name := "Hypervisors";
    SimpleGetterName(name);
    UnknownGetter(name);
  }

  /** The ORM class Resources resolves to a plural name no function has. */
  lemma ResourcesGetterMissing()
    ensures GetMethodName("Resources") !in Getters
  {
    var name := "Resources";
    SimpleGetterName(name);
    UnknownGetter(name);
  }

  /** The ORM class Migrations resolves to a plural name no function has. */
  lemma MigrationsGetterMissing()
    ensures GetMethodName("Migrations") !in Getters
  {
    var name := "Migrations";
    SimpleGetterName(name);
    UnknownGetter(name);
  }

  /** The ORM class Service resolves to `service_get`. */
  lemma ServiceGetterFound()
    ensures GetMethodName("Service") == "service_get"
  {
    var name := "Service";
    assert name[1..] == "ervice";
    SimpleGetterName(name);
    LowerService(name);
    assert "service" + "_get" == "service_get";
  }

  /** The lower-cased name of the class Service. */
  lemma LowerService(name: string)
    requires name == "Service"
    ensures Strings.Lower(name) == "service"
  {
    var v := Strings.Lower(name);
    assert v[0] == Strings.LowerChar('S') == 's';
    assert v[1..] == name[1..];
  }

  /**
   * The getter name `_get_get_method` evidently means to find: the plural
   * ORM classes listed in its exceptions table under their singular
   * getters, every other class by the general conversion.
   */
  function CorrectedGetMethodName(modelName: string): string
  {
    if modelName == "Hypervisors" then "hypervisor_get"
    else if modelName == "Resources" then "resource_get"
    else if modelName == "Migrations" then "migration_get"
    else GetMethodName(modelName)
  }

  /** With the exceptions table filled in, every ORM class of the module reaches a getter. */
  lemma CorrectedGettersFound()
    ensures CorrectedGetMethodName("Hypervisors") == "hypervisor_get"
    ensures CorrectedGetMethodName("Resources") == "resource_get"
    ensures CorrectedGetMethodName("Migrations") == "migration_get"
    ensures CorrectedGetMethodName("Service") == "service_get"
    ensures forall m :: m in {"Hypervisors", "Resources", "Migrations", "Service"} ==> CorrectedGetMethodName(m) in Getters
  {
    ServiceGetterFound();
  }

  // ---------------------------------------------------------------------
  // the database
  // ---------------------------------------------------------------------

  class Database {
    var hypervisors: seq<Dict>
    var resources: seq<Dict>
    var migrations: seq<Dict>
    var services: seq<Dict>
    /** Every committed statement, oldest first. */
    ghost var writes: seq<Write>

    function Rows(t: Table): seq<Dict>
      reads this
    {
      match t
      case Hypervisors => hypervisors
      case Resources => resources
      case Migrations => migrations
      case Services => services
    }

    ghost predicate Valid()
      reads this
    {
      && Tabular(Hypervisors, hypervisors) && Tabular(Resources, resources)
      && Tabular(Migrations, migrations) && Tabular(Services, services)
    }

    constructor ()
      ensures Valid() && writes == []
      ensures hypervisors == [] && resources == [] && migrations == [] && services == []
    {
      hypervisors, resources, migrations, services := [], [], [], [];
      writes := [];
    }

    /** Only table `t` may differ from the previous state. */
    twostate predicate OnlyTable(t: Table)
      reads this
    {
      && (t == Hypervisors || hypervisors == old(hypervisors))
      && (t == Resources || resources == old(resources))
      && (t == Migrations || migrations == old(migrations))
      && (t == Services || services == old(services))
    }

    /** Inserting an object: a duplicate id is a DBDuplicateEntry, otherwise the row stored is appended. */
    twostate predicate InsertSpec(t: Table, obj: Dict, new r: Result<Dict>)
      reads this
    {
      && OnlyTable(t)
      && (if IdTaken(old(Rows(t)), Get(obj, "id"), -1) then
            r.Err? && r.error.kind == DBDuplicateEntry && Rows(t) == old(Rows(t)) && writes == old(writes)
          else
            r == Ok(obj) && Rows(t) == old(Rows(t)) + [Stored(t, obj)]
            && writes == old(writes) + [Inserted(t, Stored(t, obj))])
    }

    /**
     * Updating the row a lookup found: the lookup's error, a DBDuplicateEntry
     * when the values move the row onto another row's id, or that row
     * replaced by its refreshed stored form.
     */
    twostate predicate UpdateSpec(t: Table, found: Result<nat>, id: Value, values: Dict, now: int, pinned: bool,
                                  new r: Result<Dict>)
      reads this
    {
      && OnlyTable(t)
      && (if found.Err? then r == Err(found.error) && Rows(t) == old(Rows(t)) && writes == old(writes)
          else
            && found.value < |old(Rows(t))|
            && var obj := Refreshed(t, old(Rows(t))[found.value], values, now, pinned);
               if IdTaken(old(Rows(t)), Get(obj, "id"), found.value) then
                 r.Err? && r.error.kind == DBDuplicateEntry && Rows(t) == old(Rows(t)) && writes == old(writes)
               else
                 r == Ok(obj) && Rows(t) == old(Rows(t))[found.value := Stored(t, obj)]
                 && writes == old(writes) + [Updated(t, id, values)])
    }

    /** A soft delete of the row a lookup found: the lookup's error, or that row with the delete values. */
    twostate predicate SoftDeleteSpec(t: Table, found: Result<nat>, id: Value, now: int, pinned: bool, new out: Outcome)
      reads this
    {
      && OnlyTable(t)
      && (if found.Err? then out == Fail(found.error) && Rows(t) == old(Rows(t)) && writes == old(writes)
          else
            && found.value < |old(Rows(t))|
            && out == Pass
            && Rows(t) == old(Rows(t))[found.value := Stored(t, Refreshed(t, old(Rows(t))[found.value], SoftDeleteValues(now), now, pinned))]
            && writes == old(writes) + [Updated(t, id, SoftDeleteValues(now))])
    }

    /**
     * What `hypervisor_create`, `resource_create` and `migration_create`
     * promise: the guard's error, MigrationExists when the context already
     * sees a migration with the id, or the insertion of the values with the
     * column defaults and an id.
     */
    twostate predicate CreateSpec(t: Table, ctx: Option<Context>, values: Dict, freshId: string, now: int,
                                  new r: Result<Dict>)
      reads this
    {
      var obj := Defaults(t, now) + WithId(values, freshId);
      if t == Migrations then MigrationCreateSpec(ctx, obj, r)
      else if RequireContext(ctx).Fail? then r == Err(RequireContext(ctx).error) && unchanged(this)
      else InsertSpec(t, obj, r)
    }

    /** `migration_create`: admin only, and a MigrationExists when a migration with the id is already stored. */
    twostate predicate MigrationCreateSpec(ctx: Option<Context>, obj: Dict, new r: Result<Dict>)
      requires "id" in obj
      reads this
    {
      if RequireAdminContext(ctx).Fail? then r == Err(RequireAdminContext(ctx).error) && unchanged(this)
      else
        var found := old(FindById(Migrations, ctx, obj["id"]));
        && (found.Ok? ==> r.Err? && r.error.kind == MigrationExists && unchanged(this))
        && (found.Err? && found.error.kind != MigrationNotFound ==> r == Err(found.error) && unchanged(this))
        && (found.Err? && found.error.kind == MigrationNotFound ==> InsertSpec(Migrations, obj, r))
    }

    /** What the `*_update` functions promise: admin only, then the update of the row with the id. */
    twostate predicate ChangeSpec(t: Table, ctx: Option<Context>, id: Value, values: Dict, now: int, pinned: bool,
                                  new r: Result<Dict>)
      reads this
    {
      if RequireAdminContext(ctx).Fail? then r == Err(RequireAdminContext(ctx).error) && unchanged(this)
      else UpdateSpec(t, old(FindById(t, ctx, id)), id, values, now, pinned, r)
    }

    /** What the `*_delete` functions promise: admin only, then the soft delete of the row with the id. */
    twostate predicate RemoveSpec(t: Table, ctx: Option<Context>, id: Value, now: int, pinned: bool, new out: Outcome)
      reads this
    {
      if RequireAdminContext(ctx).Fail? then out == Fail(RequireAdminContext(ctx).error) && unchanged(this)
      else SoftDeleteSpec(t, old(FindById(t, ctx, id)), id, now, pinned, out)
    }

    /** The flush of one write: table `t` now holds `rows`, and the write is recorded. */
    method Commit(t: Table, rows: seq<Dict>, w: Write)
      requires Valid() && Tabular(t, rows)
      modifies this
      ensures Valid() && Rows(t) == rows && OnlyTable(t) && writes == old(writes) + [w]
    {
      match t {
        case Hypervisors => hypervisors := rows;
        case Resources => resources := rows;
        case Migrations => migrations := rows;
        case Services => services := rows;
      }
      writes := writes + [w];
    }

    lemma TabularOf(t: Table)
      requires Valid()
      ensures Tabular(t, Rows(t))
    {
    }

    twostate lemma ValidAfter(t: Table)
      requires old(Valid()) && OnlyTable(t) && Tabular(t, Rows(t))
      ensures Valid()
    {
    }

    /** `session.add(obj)` and the flush. */
    method Insert(t: Table, obj: Dict) returns (r: Result<Dict>)
      requires Valid() && "id" in obj
      modifies this
      ensures Valid() && InsertSpec(t, obj, r)
      ensures r.Ok? ==> r.value == obj
    {
      TabularOf(t);
      var rows := Rows(t);
      if IdTaken(rows, Get(obj, "id"), -1) {
        r := Err(Exc(DBDuplicateEntry, Render(obj["id"])));
        return;
      }
      var row := Stored(t, obj);
      AppendKeepsTabular(t, rows, row);
      Commit(t, rows + [row], Inserted(t, row));
      r := Ok(obj);
    }

    /** `ref.update(values)` on the row at `found` and the flush. */
    method UpdateAt(t: Table, found: Result<nat>, id: Value, values: Dict, now: int, pinned: bool) returns (r: Result<Dict>)
      requires Valid() && (found.Ok? ==> found.value < |Rows(t)|)
      modifies this
      ensures Valid() && UpdateSpec(t, found, id, values, now, pinned, r)
    {
      TabularOf(t);
      if found.Err? {
        r := Err(found.error);
        return;
      }
      var rows := Rows(t);
      var i := found.value;
      var obj := Refreshed(t, rows[i], values, now, pinned);
      if IdTaken(rows, Get(obj, "id"), i) {
        r := Err(Exc(DBDuplicateEntry, Render(Get(obj, "id"))));
        return;
      }
      var row := Stored(t, obj);
      assert "id" in obj && row["id"] == Get(obj, "id");
      ReplaceKeepsTabular(t, rows, i, row);
      Commit(t, rows[i := row], Updated(t, id, values));
      r := Ok(obj);
    }

    /** The lookup `_<table>_get(context, id)` performs: the position of the row, or the error it raises. */
    function FindById(t: Table, ctx: Option<Context>, id: Value): (r: Result<nat>)
      reads this
      ensures r.Ok? ==> r.value < |Rows(t)| && Get(Rows(t)[r.value], "id") == id
      ensures LookupGuard(t, ctx).Fail? ==> r == Err(LookupGuard(t, ctx).error)
      ensures r.Err? && LookupGuard(t, ctx).Pass? && ReadDeletedMode(ctx.value, None).Ok? ==>
                r == Err(NotFoundError(NotFoundKind(t), id)) &&
                forall j :: 0 <= j < |Rows(t)| && Get(Rows(t)[j], "id") == id ==>
                  !Shows(ReadDeletedMode(ctx.value, None).value, Rows(t)[j])
    {
      Locate(t, Rows(t), ctx, LookupGuard(t, ctx), None, map["id" := id], NotFoundError(NotFoundKind(t), id))
    }

    /** The body of the `*_update` functions: admin only, then the lookup, then the update. */
    method UpdateById(t: Table, ctx: Option<Context>, id: Value, values: Dict, now: int, pinned: bool) returns (r: Result<Dict>)
      requires Valid()
      modifies this
      ensures Valid()
      ensures ChangeSpec(t, ctx, id, values, now, pinned, r)
    {
      var guard := RequireAdminContext(ctx);
      if guard.Fail? { return Err(guard.error); }
      var found := FindById(t, ctx, id);
      r := UpdateAt(t, found, id, values, now, pinned);
    }

    /** The body of the `*_delete` functions: admin only, then the lookup, then the soft delete. */
    method DeleteById(t: Table, ctx: Option<Context>, id: Value, now: int, pinned: bool) returns (out: Outcome)
      requires Valid()
      modifies this
      ensures Valid()
      ensures RemoveSpec(t, ctx, id, now, pinned, out)
    {
      var guard := RequireAdminContext(ctx);
      if guard.Fail? { return Fail(guard.error); }
      var found := FindById(t, ctx, id);
      out := SoftDeleteAt(t, found, id, now, pinned);
    }

    /** The soft delete of the row a lookup found, flushed as an update with the delete values. */
    method SoftDeleteAt(t: Table, found: Result<nat>, id: Value, now: int, pinned: bool) returns (out: Outcome)
      requires Valid() && (found.Ok? ==> found.value < |Rows(t)|)
      modifies this
      ensures Valid() && SoftDeleteSpec(t, found, id, now, pinned, out)
    {
      if found.Ok? {
        SoftDeleteKeepsId(t, found.value, now, pinned);
      }
      var r := UpdateAt(t, found, id, SoftDeleteValues(now), now, pinned);
      out := if r.Ok? then Pass else Fail(r.error);
    }

    /** The delete values leave a row's id alone, so the row cannot collide with another one. */
    lemma SoftDeleteKeepsId(t: Table, i: nat, now: int, pinned: bool)
      requires Valid() && i < |Rows(t)|
      ensures !IdTaken(Rows(t), Get(Refreshed(t, Rows(t)[i], SoftDeleteValues(now), now, pinned), "id"), i)
    {
      TabularOf(t);
      var row := Rows(t)[i];
      var obj := Refreshed(t, row, SoftDeleteValues(now), now, pinned);
      assert Get(obj, "id") == row["id"];
      forall j | 0 <= j < |Rows(t)| && j != i ensures Get(Rows(t)[j], "id") != row["id"] {
        assert Get(Rows(t)[j], "id") == Rows(t)[j]["id"];
      }
    }

    // ----- hypervisors -------------------------------------------------

    function HypervisorGetAll(ctx: Option<Context>, inactive: bool): (r: Result<seq<Dict>>)
      reads this
      ensures SelectSpec(r, Hypervisors, hypervisors, ctx, RequireContext(ctx), InactiveOverride(inactive), map[])
    {
      Select(Hypervisors, hypervisors, ctx, RequireContext(ctx), InactiveOverride(inactive), map[])
    }

    function HypervisorGet(ctx: Option<Context>, id: Value): (r: Result<Dict>)
      reads this
      ensures LookupSpec(r, Hypervisors, hypervisors, ctx, RequireContext(ctx), None, map["id" := id],
                         NotFoundError(ResourceNotFound, id))
    {
      Lookup(Hypervisors, hypervisors, ctx, RequireContext(ctx), None, map["id" := id], NotFoundError(ResourceNotFound, id))
    }

    function HypervisorGetAllByType(ctx: Option<Context>, hypervisorType: Value): (r: Result<seq<Dict>>)
      reads this
      ensures SelectSpec(r, Hypervisors, hypervisors, ctx, RequireContext(ctx), None, map["type" := hypervisorType])
    {
      Select(Hypervisors, hypervisors, ctx, RequireContext(ctx), None, map["type" := hypervisorType])
    }

    function HypervisorGetByRegisteredHost(ctx: Option<Context>, host: Value): (r: Result<Dict>)
      reads this
      ensures LookupSpec(r, Hypervisors, hypervisors, ctx, RequireContext(ctx), None, map["registered_host" := host],
                         NotFoundError(ResourceNotFound, host))
    {
      Lookup(Hypervisors, hypervisors, ctx, RequireContext(ctx), None, map["registered_host" := host],
             NotFoundError(ResourceNotFound, host))
    }

    function HypervisorGetByName(ctx: Option<Context>, name: Value): (r: Result<Dict>)
      reads this
      ensures LookupSpec(r, Hypervisors, hypervisors, ctx, RequireContext(ctx), None, map["name" := name],
                         NotFoundError(ResourceNotFound, name))
    {
      Lookup(Hypervisors, hypervisors, ctx, RequireContext(ctx), None, map["name" := name], NotFoundError(ResourceNotFound, name))
    }

    /** `hypervisor_create`: any context; no duplicate check beyond the primary key. */
    method HypervisorCreate(ctx: Option<Context>, values: Dict, freshId: string, now: int) returns (r: Result<Dict>)
      requires Valid()
      modifies this
      ensures Valid()
      ensures CreateSpec(Hypervisors, ctx, values, freshId, now, r)
      ensures r.Ok? ==> r.value == Defaults(Hypervisors, now) + WithId(values, freshId)
    {
      var guard := RequireContext(ctx);
      if guard.Fail? { return Err(guard.error); }
      r := Insert(Hypervisors, Defaults(Hypervisors, now) + WithId(values, freshId));
    }

    method HypervisorUpdate(ctx: Option<Context>, id: Value, values: Dict, now: int) returns (r: Result<Dict>)
      requires Valid()
      modifies this
      ensures Valid()
      ensures ChangeSpec(Hypervisors, ctx, id, values, now, false, r)
    {
      r := UpdateById(Hypervisors, ctx, id, values, now, false);
    }

    /** `hypervisor_delete`: a soft delete that keeps `updated_at`. */
    method HypervisorDelete(ctx: Option<Context>, id: Value, now: int) returns (out: Outcome)
      requires Valid()
      modifies this
      ensures Valid()
      ensures RemoveSpec(Hypervisors, ctx, id, now, true, out)
    {
      out := DeleteById(Hypervisors, ctx, id, now, true);
    }

    // ----- resources ---------------------------------------------------

    function ResourceGetAll(ctx: Option<Context>, inactive: bool): (r: Result<seq<Dict>>)
      reads this
      ensures SelectSpec(r, Resources, resources, ctx, RequireContext(ctx), InactiveOverride(inactive), map[])
    {
      Select(Resources, resources, ctx, RequireContext(ctx), InactiveOverride(inactive), map[])
    }

    function ResourceGet(ctx: Option<Context>, id: Value): (r: Result<Dict>)
      reads this
      ensures LookupSpec(r, Resources, resources, ctx, RequireContext(ctx), None, map["id" := id],
                         NotFoundError(ResourceNotFound, id))
    {
      Lookup(Resources, resources, ctx, RequireContext(ctx), None, map["id" := id], NotFoundError(ResourceNotFound, id))
    }

    function ResourceGetAllByType(ctx: Option<Context>, resourceType: Value): (r: Result<seq<Dict>>)
      reads this
      ensures SelectSpec(r, Resources, resources, ctx, RequireContext(ctx), None, map["type" := resourceType])
    {
      Select(Resources, resources, ctx, RequireContext(ctx), None, map["type" := resourceType])
    }

    function ResourceGetByIdAtSource(ctx: Option<Context>, idAtSource: Value): (r: Result<Dict>)
      reads this
      ensures LookupSpec(r, Resources, resources, ctx, RequireContext(ctx), None, map["id_at_source" := idAtSource],
                         NotFoundError(ResourceNotFound, idAtSource))
    {
      Lookup(Resources, resources, ctx, RequireContext(ctx), None, map["id_at_source" := idAtSource],
             NotFoundError(ResourceNotFound, idAtSource))
    }

    /** `_resources_get_by_source` as written: it filters on `source`, which is not a column of Resources. */
    function ResourcesGetBySource(ctx: Option<Context>, source: Value): (r: Result<seq<Dict>>)
      reads this
      ensures SelectSpec(r, Resources, resources, ctx, RequireContext(ctx), None, map["source" := source])
    {
      Select(Resources, resources, ctx, RequireContext(ctx), None, map["source" := source])
    }

    /** Whatever the context and the rows, the listing by source never lists anything. */
    lemma ResourcesBySourceRaises(ctx: Option<Context>, source: Value)
      ensures ResourcesGetBySource(ctx, source).Err?
      ensures RequireContext(ctx).Pass? && ReadDeletedMode(ctx.value, None).Ok? ==>
                ResourcesGetBySource(ctx, source).error.kind == InvalidRequestError
    {
      assert "source" !in Columns(Resources);
      assert !(map["source" := source].Keys <= Columns(Resources));
    }

    /** The listing by source on the column that holds it, `source_hypervisor`. */
    function ResourcesGetBySourceHypervisor(ctx: Option<Context>, source: Value): (r: Result<seq<Dict>>)
      reads this
      ensures SelectSpec(r, Resources, resources, ctx, RequireContext(ctx), None, map["source_hypervisor" := source])
      ensures RequireContext(ctx).Pass? && ReadDeletedMode(ctx.value, None).Ok? ==>
                && r.Ok?
                && (forall i :: 0 <= i < |r.value| ==> r.value[i] in resources && Get(r.value[i], "source_hypervisor") == source)
                && (forall j :: 0 <= j < |resources| ==>
                      (Get(resources[j], "source_hypervisor") == source && Shows(ReadDeletedMode(ctx.value, None).value, resources[j]))
                      ==> resources[j] in r.value)
    {
      Select(Resources, resources, ctx, RequireContext(ctx), None, map["source_hypervisor" := source])
    }

    /** `resource_create`: any context; no duplicate check beyond the primary key. */
    method ResourceCreate(ctx: Option<Context>, values: Dict, freshId: string, now: int) returns (r: Result<Dict>)
      requires Valid()
      modifies this
      ensures Valid()
      ensures CreateSpec(Resources, ctx, values, freshId, now, r)
      ensures r.Ok? ==> r.value == Defaults(Resources, now) + WithId(values, freshId)
    {
      var guard := RequireContext(ctx);
      if guard.Fail? { return Err(guard.error); }
      r := Insert(Resources, Defaults(Resources, now) + WithId(values, freshId));
    }

    method ResourceUpdate(ctx: Option<Context>, id: Value, values: Dict, now: int) returns (r: Result<Dict>)
      requires Valid()
      modifies this
      ensures Valid()
      ensures ChangeSpec(Resources, ctx, id, values, now, false, r)
    {
      r := UpdateById(Resources, ctx, id, values, now, false);
    }

    method ResourceDelete(ctx: Option<Context>, id: Value, now: int) returns (out: Outcome)
      requires Valid()
      modifies this
      ensures Valid()
      ensures RemoveSpec(Resources, ctx, id, now, true, out)
    {
      out := DeleteById(Resources, ctx, id, now, true);
    }

    /**
     * `resource_delete_all_by_source`, over the listing on
     * `source_hypervisor`: soft-delete, in table order, every resource the
     * listing returns, keeping `updated_at`.
     */
    method ResourceDeleteAllBySource(ctx: Option<Context>, source: Value, now: int) returns (out: Outcome)
      requires Valid()
      modifies this
      ensures Valid()
      ensures RequireAdminContext(ctx).Fail? ==> out == Fail(RequireAdminContext(ctx).error) && unchanged(this)
      ensures out.Fail? ==> unchanged(this)
      ensures out.Pass? <==> RequireAdminContext(ctx).Pass? && ReadDeletedMode(ctx.value, None).Ok?
      ensures out.Pass? ==> SoftDeletedWhere(ReadDeletedMode(ctx.value, None).value, map["source_hypervisor" := source], now)
    {
      var guard := RequireAdminContext(ctx);
      if guard.Fail? { return Fail(guard.error); }
      var listed := ResourcesGetBySourceHypervisor(ctx, source);
      if listed.Err? { return Fail(listed.error); }
      TabularOf(Resources);
      SoftDeleteSelected(ReadDeletedMode(ctx.value, None).value, map["source_hypervisor" := source], now);
      MarkDeletedTabular(old(resources), ReadDeletedMode(ctx.value, None).value, map["source_hypervisor" := source], now);
      ValidAfter(Resources);
      out := Pass;
    }

    /**
     * `resource_delete_all_by_source` as written: past the admin guard its
     * listing filters on `source`, which raises, so nothing is ever deleted.
     */
    method ResourceDeleteAllBySourceAsWritten(ctx: Option<Context>, source: Value) returns (out: Outcome)
      ensures out.Fail?
      ensures RequireAdminContext(ctx).Fail? ==> out == Fail(RequireAdminContext(ctx).error)
      ensures RequireAdminContext(ctx).Pass? && ReadDeletedMode(ctx.value, None).Ok? ==> out.error.kind == InvalidRequestError
    {
      var guard := RequireAdminContext(ctx);
      if guard.Fail? { return Fail(guard.error); }
      var listed := ResourcesGetBySource(ctx, source);
      ResourcesBySourceRaises(ctx, source);
      out := Fail(listed.error);
    }

    /** Every resource the visibility and filters select is soft-deleted in place, in table order; nothing else changes. */
    twostate predicate SoftDeletedWhere(vis: Visibility, conds: Dict, now: int)
      reads this
    {
      && OnlyTable(Resources)
      && resources == MarkDeleted(old(resources), vis, conds, now)
      && writes == old(writes) + DeleteLog(old(resources), vis, conds, now)
    }

    /**
     * The loop of `resource_delete_all_by_source`: each selected resource
     * is soft-deleted inside the session, which writes the rows back when
     * the transaction commits.
     */
    method SoftDeleteSelected(vis: Visibility, conds: Dict, now: int)
      modifies this
      ensures SoftDeletedWhere(vis, conds, now)
    {
      var rows := resources;
      var marked: seq<Dict> := [];
      var log: seq<Write> := [];
      var i := 0;
      while i < |rows|
        invariant 0 <= i <= |rows|
        invariant marked == MarkDeleted(rows[..i], vis, conds, now)
        invariant log == DeleteLog(rows[..i], vis, conds, now)
        invariant unchanged(this)
      {
        MarkDeletedStep(rows, i, vis, conds, now);
        DeleteLogStep(rows, i, vis, conds, now);
        if Selected(vis, conds, rows[i]) {
          marked := marked + [rows[i] + SoftDeleteValues(now)];
          log := log + [Updated(Resources, Get(rows[i], "id"), SoftDeleteValues(now))];
        } else {
          marked := marked + [rows[i]];
        }
        i := i + 1;
      }
      assert rows[..i] == rows;
      resources := marked;
      writes := writes + log;
    }

    // ----- migrations --------------------------------------------------

    function MigrationGetAll(ctx: Option<Context>, inactive: bool): (r: Result<seq<Dict>>)
      reads this
      ensures SelectSpec(r, Migrations, migrations, ctx, RequireContext(ctx), InactiveOverride(inactive), map[])
    {
      Select(Migrations, migrations, ctx, RequireContext(ctx), InactiveOverride(inactive), map[])
    }

    function MigrationGet(ctx: Option<Context>, id: Value): (r: Result<Dict>)
      reads this
      ensures LookupSpec(r, Migrations, migrations, ctx, RequireContext(ctx), None, map["id" := id],
                         NotFoundError(MigrationNotFound, id))
    {
      Lookup(Migrations, migrations, ctx, RequireContext(ctx), None, map["id" := id], NotFoundError(MigrationNotFound, id))
    }

    function MigrationGetByName(ctx: Option<Context>, name: Value): (r: Result<Dict>)
      reads this
      ensures LookupSpec(r, Migrations, migrations, ctx, RequireContext(ctx), None, map["name" := name],
                         NotFoundError(MigrationNotFoundByName, name))
    {
      Lookup(Migrations, migrations, ctx, RequireContext(ctx), None, map["name" := name],
             NotFoundError(MigrationNotFoundByName, name))
    }

    /** `migration_create`: admin only; MigrationExists when the context sees a migration with the id. */
    method MigrationCreate(ctx: Option<Context>, values: Dict, freshId: string, now: int) returns (r: Result<Dict>)
      requires Valid()
      modifies this
      ensures Valid()
      ensures CreateSpec(Migrations, ctx, values, freshId, now, r)
      ensures r.Ok? ==> r.value == Defaults(Migrations, now) + WithId(values, freshId)
    {
      var guard := RequireAdminContext(ctx);
      if guard.Fail? { return Err(guard.error); }
      r := InsertMigration(ctx, Defaults(Migrations, now) + WithId(values, freshId));
    }

    /** The part of `migration_create` after the admin check: refuse an id the context already sees, else insert. */
    method InsertMigration(ctx: Option<Context>, obj: Dict) returns (r: Result<Dict>)
      requires Valid() && "id" in obj && RequireAdminContext(ctx).Pass?
      modifies this
      ensures Valid() && MigrationCreateSpec(ctx, obj, r)
      ensures r.Ok? ==> r.value == obj
    {
      var found := FindById(Migrations, ctx, obj["id"]);
      if found.Ok? {
        r := Err(Exc(MigrationExists, Render(obj["id"])));
      } else if found.error.kind != MigrationNotFound {
        r := Err(found.error);
      } else {
        r := Insert(Migrations, obj);
      }
    }

    method MigrationUpdate(ctx: Option<Context>, id: Value, values: Dict, now: int) returns (r: Result<Dict>)
      requires Valid()
      modifies this
      ensures Valid()
      ensures ChangeSpec(Migrations, ctx, id, values, now, false, r)
    {
      r := UpdateById(Migrations, ctx, id, values, now, false);
    }

    method MigrationDelete(ctx: Option<Context>, id: Value, now: int) returns (out: Outcome)
      requires Valid()
      modifies this
      ensures Valid()
      ensures RemoveSpec(Migrations, ctx, id, now, true, out)
    {
      out := DeleteById(Migrations, ctx, id, now, true);
    }

    // ----- services ----------------------------------------------------

    /** `service_get`: admin only. */
    function ServiceGet(ctx: Option<Context>, id: Value): (r: Result<Dict>)
      reads this
      ensures LookupSpec(r, Services, services, ctx, RequireAdminContext(ctx), None, map["id" := id],
                         NotFoundError(ServiceNotFound, id))
    {
      Lookup(Services, services, ctx, RequireAdminContext(ctx), None, map["id" := id], NotFoundError(ServiceNotFound, id))
    }

    function ServiceGetAll(ctx: Option<Context>, disabled: Option<bool>): (r: Result<seq<Dict>>)
      reads this
      ensures SelectSpec(r, Services, services, ctx, RequireAdminContext(ctx), None,
                         if disabled.Some? then map["disabled" := VBool(disabled.value)] else map[])
    {
      Select(Services, services, ctx, RequireAdminContext(ctx), None,
             if disabled.Some? then map["disabled" := VBool(disabled.value)] else map[])
    }

    /** `service_get_all_by_topic`: never lists a soft-deleted service. */
    function ServiceGetAllByTopic(ctx: Option<Context>, topic: Value, disabled: Option<bool>): (r: Result<seq<Dict>>)
      reads this
      ensures SelectSpec(r, Services, services, ctx, RequireAdminContext(ctx), Some("no"),
                         if disabled.Some? then map["topic" := topic, "disabled" := VBool(disabled.value)] else map["topic" := topic])
      ensures r.Ok? ==> forall i :: 0 <= i < |r.value| ==>
                Get(r.value[i], "deleted") == VBool(false) && Get(r.value[i], "topic") == topic
    {
      Select(Services, services, ctx, RequireAdminContext(ctx), Some("no"),
             if disabled.Some? then map["topic" := topic, "disabled" := VBool(disabled.value)] else map["topic" := topic])
    }

    /** `service_get_by_host_and_topic`: a live, enabled service; ServiceNotFound names no id. */
    function ServiceGetByHostAndTopic(ctx: Option<Context>, host: Value, topic: Value): (r: Result<Dict>)
      reads this
      ensures LookupSpec(r, Services, services, ctx, RequireAdminContext(ctx), Some("no"),
                         map["disabled" := VBool(false), "host" := host, "topic" := topic], NotFoundError(ServiceNotFound, VNone))
      ensures r.Ok? ==> Get(r.value, "deleted") == VBool(false) && Get(r.value, "disabled") == VBool(false)
    {
      Lookup(Services, services, ctx, RequireAdminContext(ctx), Some("no"),
             map["disabled" := VBool(false), "host" := host, "topic" := topic], NotFoundError(ServiceNotFound, VNone))
    }

    /** `service_get_by_args`: the first service of the host running the binary. */
    function ServiceGetByArgs(ctx: Option<Context>, host: Value, binary: Value): (r: Result<Dict>)
      reads this
      ensures LookupSpec(r, Services, services, ctx, RequireAdminContext(ctx), None,
                         map["host" := host, "binary" := binary], NotFoundError(ServiceNotFound, binary))
    {
      Lookup(Services, services, ctx, RequireAdminContext(ctx), None,
             map["host" := host, "binary" := binary], NotFoundError(ServiceNotFound, binary))
    }

    /**
     * `service_create`: admin only; forced disabled unless
     * `enable_new_services`; ServiceExists when the context sees a service
     * with the id.
     */
    method ServiceCreate(ctx: Option<Context>, values: Dict, freshId: string, now: int, enableNewServices: bool)
      returns (r: Result<Dict>)
      requires Valid()
      modifies this
      ensures Valid()
      ensures RequireAdminContext(ctx).Fail? ==> r == Err(RequireAdminContext(ctx).error) && unchanged(this)
      ensures RequireAdminContext(ctx).Pass? ==>
                var given := Defaults(Services, now) + WithId(values, freshId);
                var obj := if enableNewServices then given else given["disabled" := VBool(true)];
                var found := old(FindById(Services, ctx, obj["id"]));
                && (found.Ok? ==> r.Err? && r.error.kind == ServiceExists && unchanged(this))
                && (found.Err? && found.error.kind != ServiceNotFound ==> r == Err(found.error) && unchanged(this))
                && (found.Err? && found.error.kind == ServiceNotFound ==> InsertSpec(Services, obj, r))
    {
      var guard := RequireAdminContext(ctx);
      if guard.Fail? { return Err(guard.error); }
      var given := Defaults(Services, now) + WithId(values, freshId);
      var obj := if enableNewServices then given else given["disabled" := VBool(true)];
      var found := FindById(Services, ctx, obj["id"]);
      if found.Ok? { return Err(Exc(ServiceExists, Render(obj["id"]))); }
      if found.error.kind != ServiceNotFound { return Err(found.error); }
      r := Insert(Services, obj);
    }

    /**
     * `service_update` (one attempt of the deadlock retry): changing
     * `disabled` also stamps `modified_at` and keeps `updated_at`.
     */
    method ServiceUpdate(ctx: Option<Context>, id: Value, values: Dict, now: int) returns (r: Result<Dict>)
      requires Valid()
      modifies this
      ensures Valid()
      ensures ChangeSpec(Services, ctx, id, if "disabled" in values then map["modified_at" := VTime(now, None)] + values else values,
                         now, "disabled" in values, r)
    {
      var stamped := if "disabled" in values then map["modified_at" := VTime(now, None)] + values else values;
      r := UpdateById(Services, ctx, id, stamped, now, "disabled" in values);
    }

    /** `service_destroy`: `GutsBase.delete`, a soft delete whose save stamps `updated_at`. */
    method ServiceDestroy(ctx: Option<Context>, id: Value, now: int) returns (out: Outcome)
      requires Valid()
      modifies this
      ensures Valid()
      ensures RemoveSpec(Services, ctx, id, now, false, out)
    {
      out := DeleteById(Services, ctx, id, now, false);
    }

    /**
     * `get_by_id(context, model, id)`: calls the getter `_get_get_method`
     * derives from the model class name; when no such function exists the
     * call of `None` is a TypeError.
     */
    function GetById(ctx: Option<Context>, modelName: string, id: Value): (r: Result<Dict>)
      reads this
      ensures RequireContext(ctx).Fail? ==> r == Err(RequireContext(ctx).error)
      ensures RequireContext(ctx).Pass? && GetMethodName(modelName) !in Getters ==> r.Err? && r.error.kind == TypeError
      ensures RequireContext(ctx).Pass? && GetMethodName(modelName) == "service_get" ==> r == ServiceGet(ctx, id)
      ensures RequireContext(ctx).Pass? && GetMethodName(modelName) == "hypervisor_get" ==> r == HypervisorGet(ctx, id)
      ensures RequireContext(ctx).Pass? && GetMethodName(modelName) == "resource_get" ==> r == ResourceGet(ctx, id)
      ensures RequireContext(ctx).Pass? && GetMethodName(modelName) == "migration_get" ==> r == MigrationGet(ctx, id)
    {
      var guard := RequireContext(ctx);
      if guard.Fail? then Err(guard.error)
      else
        var name := GetMethodName(modelName);
        if name == "hypervisor_get" then HypervisorGet(ctx, id)
        else if name == "resource_get" then ResourceGet(ctx, id)
        else if name == "migration_get" then MigrationGet(ctx, id)
        else if name == "service_get" then ServiceGet(ctx, id)
        else Err(Exc(TypeError, "'NoneType' object is not callable"))
    }

    /** `get_by_id` as meant: the getter is found through the filled-in exceptions table. */
    function GetByIdCorrected(ctx: Option<Context>, modelName: string, id: Value): (r: Result<Dict>)
      reads this
      ensures RequireContext(ctx).Fail? ==> r == Err(RequireContext(ctx).error)
      ensures RequireContext(ctx).Pass? && CorrectedGetMethodName(modelName) !in Getters ==> r.Err? && r.error.kind == TypeError
      ensures RequireContext(ctx).Pass? && modelName == "Hypervisors" ==> r == HypervisorGet(ctx, id)
      ensures RequireContext(ctx).Pass? && modelName == "Resources" ==> r == ResourceGet(ctx, id)
      ensures RequireContext(ctx).Pass? && modelName == "Migrations" ==> r == MigrationGet(ctx, id)
      ensures RequireContext(ctx).Pass? && modelName == "Service" ==> r == ServiceGet(ctx, id)
    {
      CorrectedGettersFound();
      var guard := RequireContext(ctx);
      if guard.Fail? then Err(guard.error)
      else
        var name := CorrectedGetMethodName(modelName);
        if name == "hypervisor_get" then HypervisorGet(ctx, id)
        else if name == "resource_get" then ResourceGet(ctx, id)
        else if name == "migration_get" then MigrationGet(ctx, id)
        else if name == "service_get" then ServiceGet(ctx, id)
        else Err(Exc(TypeError, "'NoneType' object is not callable"))
    }

    /** Every model class but Service reaches no getter through `get_by_id`. */
    lemma GetByIdOfModels(ctx: Option<Context>, id: Value)
      requires RequireContext(ctx).Pass?
      ensures GetById(ctx, "Hypervisors", id).Err? && GetById(ctx, "Hypervisors", id).error.kind == TypeError
      ensures GetById(ctx, "Resources", id).Err? && GetById(ctx, "Resources", id).error.kind == TypeError
      ensures GetById(ctx, "Migrations", id).Err? && GetById(ctx, "Migrations", id).error.kind == TypeError
      ensures GetById(ctx, "Service", id) == ServiceGet(ctx, id)
    {
      HypervisorsGetterMissing();
      ResourcesGetterMissing();
      MigrationsGetterMissing();
      ServiceGetterFound();
    }
  }

  /** Appending a row to the table appends it to the listing exactly when it is selected. */
  lemma QueryAppend(rows: seq<Dict>, row: Dict, vis: Visibility, conds: Dict)
    ensures Query(rows + [row], vis, conds) == Query(rows, vis, conds) + (if Selected(vis, conds, row) then [row] else [])
  {
    assert (rows + [row])[..|rows|] == rows;
  }

  /** The rows with every selected one soft-deleted. */
  function MarkDeleted(rows: seq<Dict>, vis: Visibility, conds: Dict, now: int): (r: seq<Dict>)
    ensures |r| == |rows|
    decreases |rows|
  {
    if rows == [] then []
    else
      var last := rows[|rows| - 1];
      MarkDeleted(rows[..|rows| - 1], vis, conds, now)
        + [if Selected(vis, conds, last) then last + SoftDeleteValues(now) else last]
  }

  /** Each row is soft-deleted exactly when it is selected. */
  lemma {:induction false} MarkDeletedAt(rows: seq<Dict>, vis: Visibility, conds: Dict, now: int)
    ensures forall i :: 0 <= i < |rows| ==>
              MarkDeleted(rows, vis, conds, now)[i] == if Selected(vis, conds, rows[i]) then rows[i] + SoftDeleteValues(now) else rows[i]
    decreases |rows|
  {
    if rows != [] {
      var init := rows[..|rows| - 1];
      MarkDeletedAt(init, vis, conds, now);
      assert forall i :: 0 <= i < |init| ==> rows[i] == init[i];
    }
  }

  /** One more row of a prefix: its marked form is appended. */
  lemma MarkDeletedStep(rows: seq<Dict>, i: nat, vis: Visibility, conds: Dict, now: int)
    requires i < |rows|
    ensures MarkDeleted(rows[..i + 1], vis, conds, now)
            == MarkDeleted(rows[..i], vis, conds, now) + [if Selected(vis, conds, rows[i]) then rows[i] + SoftDeleteValues(now) else rows[i]]
  {
    assert rows[..i + 1][..i] == rows[..i];
  }

  /** Soft-deleting rows keeps their ids and their columns. */
  lemma MarkDeletedTabular(rows: seq<Dict>, vis: Visibility, conds: Dict, now: int)
    requires Tabular(Resources, rows)
    ensures Tabular(Resources, MarkDeleted(rows, vis, conds, now))
  {
    var r := MarkDeleted(rows, vis, conds, now);
    MarkDeletedAt(rows, vis, conds, now);
    assert forall i :: 0 <= i < |r| ==> "id" in r[i] && r[i]["id"] == rows[i]["id"] && r[i].Keys <= Columns(Resources);
  }

  /** The log entries of soft-deleting the selected rows, in table order. */
  function DeleteLog(rows: seq<Dict>, vis: Visibility, conds: Dict, now: int): seq<Write>
    decreases |rows|
  {
    if rows == [] then []
    else
      var last := rows[|rows| - 1];
      DeleteLog(rows[..|rows| - 1], vis, conds, now)
        + (if Selected(vis, conds, last) then [Updated(Resources, Get(last, "id"), SoftDeleteValues(now))] else [])
  }

  /** One more row of a prefix: its entry, when it is selected, is appended to the log. */
  lemma DeleteLogStep(rows: seq<Dict>, i: nat, vis: Visibility, conds: Dict, now: int)
    requires i < |rows|
    ensures DeleteLog(rows[..i + 1], vis, conds, now)
            == DeleteLog(rows[..i], vis, conds, now)
               + (if Selected(vis, conds, rows[i]) then [Updated(Resources, Get(rows[i], "id"), SoftDeleteValues(now))] else [])
  {
    assert rows[..i + 1][..i] == rows[..i];
  }

  /** The log of a soft delete over a filter holds one entry per row the filter lists, in the listing's order. */
  lemma {:induction false} DeleteLogOfQuery(rows: seq<Dict>, vis: Visibility, conds: Dict, now: int)
    ensures DeleteLog(rows, vis, conds, now) == SoftDeletes(Query(rows, vis, conds), now)
    decreases |rows|
  {
    if rows != [] {
      var init := rows[..|rows| - 1];
      var last := rows[|rows| - 1];
      DeleteLogOfQuery(init, vis, conds, now);
      if Selected(vis, conds, last) {
        SoftDeletesAppend(Query(init, vis, conds), last, now);
      }
    }
  }

  /** The log entries of soft-deleting the given rows, in order. */
  function SoftDeletes(rows: seq<Dict>, now: int): (ws: seq<Write>)
    ensures |ws| == |rows|
    ensures forall i :: 0 <= i < |rows| ==> ws[i] == Updated(Resources, Get(rows[i], "id"), SoftDeleteValues(now))
    decreases |rows|
  {
    if rows == [] then []
    else SoftDeletes(rows[..|rows| - 1], now) + [Updated(Resources, Get(rows[|rows| - 1], "id"), SoftDeleteValues(now))]
  }

  lemma SoftDeletesAppend(rows: seq<Dict>, row: Dict, now: int)
    ensures SoftDeletes(rows + [row], now) == SoftDeletes(rows, now) + [Updated(Resources, Get(row, "id"), SoftDeleteValues(now))]
  {
    assert (rows + [row])[..|rows|] == rows;
  }
}
