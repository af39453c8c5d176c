/**
 * What the handlers of guts/migration/manager.py share: the Migration and
 * Resource records they mutate and save, the create requests they cast to a
 * destination, the parse of `df` output behind the free-space reports, and
 * the name of the lock around a migration operation.
 *
 * A `save()` is recorded as one entry of a shared log, so the order in
 * which the two records are saved is part of the model; what the object
 * layer does with a save is modelled in the Objects module.
 */
module MigrationService {
  import opened Wrappers
  import opened PyValues
  import opened Exceptions
  import Strings

  /** One `save()`: the record saved and the fields the handlers set on it. */
  datatype Saved =
    | MigrationSaved(migrationId: string, status: Value, event: Value)
    | ResourceSaved(resourceId: string, migrated: bool)

  /** The saves made so far, in the order they were made. */
  class SaveLog {
    var entries: seq<Saved>

    constructor()
      ensures entries == []
    {
      entries := [];
    }
  }

  /** A Migration object, with the two fields the handlers change. */
  class MigrationRecord {
    const id: string
    const sourceInstanceId: Value
    var status: Value
    var event: Value

    constructor(id: string, sourceInstanceId: Value, status: Value, event: Value)
      ensures this.id == id && this.sourceInstanceId == sourceInstanceId
      ensures this.status == status && this.event == event
    {
      this.id := id;
      this.sourceInstanceId := sourceInstanceId;
      this.status := status;
      this.event := event;
    }

    /** `migration_ref.save()`: the current status and event are written. */
    method Save(log: SaveLog)
      modifies log
      ensures log.entries == old(log.entries) + [MigrationSaved(id, status, event)]
    {
      log.entries := log.entries + [MigrationSaved(id, status, event)];
    }
  }

  /**
   * A Resource object. `properties` is what `ast.literal_eval` makes of the
   * stored properties text: the dict it denotes, or None where the text is
   * not a literal and `literal_eval` raises ValueError.
   */
  class ResourceRecord {
    const id: string
    const resourceType: Value
    const idAtSource: string
    const properties: Option<Dict>
    var migrated: bool

    constructor(id: string, resourceType: Value, idAtSource: string, properties: Option<Dict>, migrated: bool)
      ensures this.id == id && this.resourceType == resourceType && this.idAtSource == idAtSource
      ensures this.properties == properties && this.migrated == migrated
    {
      this.id := id;
      this.resourceType := resourceType;
      this.idAtSource := idAtSource;
      this.properties := properties;
      this.migrated := migrated;
    }

    /** `resource_ref.save()`: the current `migrated` flag is written. */
    method Save(log: SaveLog)
      modifies log
      ensures log.entries == old(log.entries) + [ResourceSaved(id, migrated)]
    {
      log.entries := log.entries + [ResourceSaved(id, migrated)];
    }
  }

  /** `ast.literal_eval(resource_ref.properties)`. */
  function LiteralEval(properties: Option<Dict>): (r: Result<Dict>)
    ensures r.Ok? <==> properties.Some?
    ensures r.Ok? ==> r.value == properties.value
    ensures r.Err? ==> r.error.kind == ValueError
  {
    if properties.Some? then Ok(properties.value) else Err(Exc(ValueError, "malformed string"))
  }

  // ---------------------------------------------------------------------
  // `_cast_to_destination`
  // ---------------------------------------------------------------------

  /** A create request cast to a destination manager: its topic, method and arguments. */
  datatype Cast = Cast(topic: string, operation: string, migrationId: string, resourceId: string, kwargs: Dict)

  /** The topic of the destination manager on `destHost`. */
  function DestinationTopic(destHost: string): (topic: string)
    ensures |topic| == |"guts-destination."| + |destHost|
    ensures topic[..|"guts-destination."|] == "guts-destination." && topic[|"guts-destination."|..] == destHost
  {
    "guts-destination." + destHost
  }

  /** The named parameters of `_cast_to_destination`, which a keyword argument may not repeat. */
  const CastParameters: set<string> := {"context", "dest_host", "method", "migration_ref", "resource_ref"}

  /** Whether `info` can be passed as the keyword arguments of `_cast_to_destination`. */
  predicate CastAdmits(info: Dict)
  {
    forall key :: key in info ==> key !in CastParameters
  }

  /** Adding a key that is not a parameter name keeps arguments admissible, and does not make them so. */
  lemma CastAdmitsWith(info: Dict, key: string, v: Value)
    requires key !in CastParameters
    ensures CastAdmits(info[key := v]) <==> CastAdmits(info)
  {
    if CastAdmits(info) {
      forall k | k in info[key := v] ensures k !in CastParameters {
        if k != key {
          assert k in info;
        }
      }
    }
  }

  /**
   * `_cast_to_destination(context, dest_host, method, migration_ref,
   * resource_ref, **info)`: a key of `info` naming one of the function's own
   * parameters is a TypeError; otherwise one request goes to the
   * destination host's topic, carrying `info` unchanged.
   */
  function CastRequest(destHost: string, operation: string, migrationId: string, resourceId: string, info: Dict): (r: Result<Cast>)
    ensures r.Ok? <==> CastAdmits(info)
    ensures r.Err? ==> r.error.kind == TypeError
    ensures r.Ok? ==> r.value.topic == DestinationTopic(destHost) && r.value.operation == operation
    ensures r.Ok? ==> r.value.migrationId == migrationId && r.value.resourceId == resourceId && r.value.kwargs == info
  {
    if !CastAdmits(info) then
      Err(Exc(TypeError, "_cast_to_destination() got multiple values for a keyword argument"))
    else
      Ok(Cast(DestinationTopic(destHost), operation, migrationId, resourceId, info))
  }

  /** Equal strings after equal prefixes are equal. */
  lemma PrefixCancel(p: string, x: string, y: string)
    requires p + x == p + y
    ensures x == y
  {
    assert x == (p + x)[|p|..];
    assert y == (p + y)[|p|..];
  }

  /** Requests to different hosts go to different topics. */
  lemma TopicsSeparateHosts(host1: string, host2: string)
    requires DestinationTopic(host1) == DestinationTopic(host2)
    ensures host1 == host2
  {
    PrefixCancel("guts-destination.", host1, host2);
  }

  // ---------------------------------------------------------------------
  // `_get_free_space`
  // ---------------------------------------------------------------------

  const FreeSpaceFailure := "Failed to get the available free space."

  /**
   * `_get_free_space`: the `df` output (an error when `df` fails) is parsed
   * for the fourth whitespace-separated field of its second line; a failing
   * command, a missing line or field, or a field that is not an integer all
   * become the same GutsException.
   */
  function FreeSpace(df: Result<string>): (r: Result<int>)
    ensures r.Err? ==> r.error == Exc(GutsException, FreeSpaceFailure)
    ensures df.Err? ==> r.Err?
    ensures df.Ok? && |Strings.Lines(df.value)| < 2 ==> r.Err?
    ensures r.Ok? ==> var row := Strings.Fields(Strings.Lines(df.value)[1]);
      |row| >= 4 && Strings.ParseInt(row[3]) == Some(r.value)
  {
    if df.Err? then Err(Exc(GutsException, FreeSpaceFailure))
    else
      var lines := Strings.Lines(df.value);
      if |lines| < 2 then Err(Exc(GutsException, FreeSpaceFailure))
      else
        var row := Strings.Fields(lines[1]);
        if |row| < 4 then Err(Exc(GutsException, FreeSpaceFailure))
        else match Strings.ParseInt(row[3])
          case None => Err(Exc(GutsException, FreeSpaceFailure))
          case Some(n) => Ok(n)
  }

  /**
   * The free space of a `df --portability` report is its Available column:
   * for a header line and a row of column values, the value in the fourth
   * column is what `_get_free_space` returns.
   */
  lemma FreeSpaceOfReport(header: string, filesystem: string, size: string, used: string, available: int, rest: seq<string>)
    requires '\n' !in header
    requires forall w :: w in [filesystem, size, used] + rest ==> w != [] && Strings.NoSpace(w)
    ensures var row := [filesystem, size, used, Strings.IntToString(available)] + rest;
      FreeSpace(Ok(header + "\n" + Strings.Join(row, " ") + "\n")) == Ok(available)
  {
    var number := Strings.IntToString(available);
    var row := [filesystem, size, used, number] + rest;
    var words := [filesystem, size, used] + rest;
    Strings.IntRoundTrip(available);
    IntTextIsWord(available);
    forall i | 0 <= i < |row| ensures row[i] != [] && Strings.NoSpace(row[i]) {
      if i < 3 {
        assert row[i] == words[i] && words[i] in words;
      } else if i > 3 {
        assert row[i] == words[i - 1] && words[i - 1] in words;
      }
    }
    var line := Strings.Join(row, " ");
    Strings.FieldsJoin(row);
    forall i | 0 <= i < |row| ensures '\n' !in row[i] {
      assert Strings.NoSpace(row[i]);
    }
    JoinLeavesOut(row, " ", '\n');
    var lines := [header, line];
    Strings.LinesOfTerminated(lines);
    assert Strings.Join(lines, "\n") == header + "\n" + line;
    assert Strings.Join(lines, "\n") + "\n" == header + "\n" + line + "\n";
  }

  /** The text of an integer holds no blank and is not empty. */
  lemma IntTextIsWord(i: int)
    ensures Strings.IntToString(i) != [] && Strings.NoSpace(Strings.IntToString(i))
  {
    var digits := Strings.NatToString(if i < 0 then -i else i);
    assert Strings.AllDigits(digits);
    if i < 0 {
      assert Strings.IntToString(i) == "-" + digits;
      forall k | 0 <= k < |"-" + digits| ensures !Strings.IsSpace(("-" + digits)[k]) {
        if k > 0 {
          assert ("-" + digits)[k] == digits[k - 1];
        }
      }
    }
  }

  /** A character in none of the parts and not in the separator is not in their join. */
  lemma {:induction false} JoinLeavesOut(parts: seq<string>, sep: string, c: char)
    requires c !in sep
    requires forall i :: 0 <= i < |parts| ==> c !in parts[i]
    ensures c !in Strings.Join(parts, sep)
    decreases |parts|
  {
    if |parts| > 1 {
      JoinLeavesOut(parts[1..], sep, c);
      assert Strings.Join(parts, sep) == parts[0] + sep + Strings.Join(parts[1..], sep);
    }
  }

  // ---------------------------------------------------------------------
  // `locked_migration_operation`
  // ---------------------------------------------------------------------

  /** The name of the lock taken around `operation` for a migration: `"<source_instance_id>-<operation>"`. */
  function LockName(sourceInstanceId: Value, operation: string): (lock: string)
    ensures var id := Render(sourceInstanceId);
      && |lock| == |id| + 1 + |operation|
      && lock[..|id|] == id && lock[|id|] == '-' && lock[|id| + 1..] == operation
  {
    Render(sourceInstanceId) + "-" + operation
  }

  /**
   * Two operations of the same source VM take the same lock only when they
   * are the same operation.
   */
  lemma LockSeparatesOperations(sourceInstanceId: Value, op1: string, op2: string)
    requires LockName(sourceInstanceId, op1) == LockName(sourceInstanceId, op2)
    ensures op1 == op2
  {
    PrefixCancel(Render(sourceInstanceId) + "-", op1, op2);
  }
}
