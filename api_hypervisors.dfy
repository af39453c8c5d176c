/**
 * The hypervisor controller of guts/api/v1/hypervisors.py: the `enabled`
 * list filter, `show`, and `create`, which validates and normalises a
 * request's hypervisor properties and then updates the hypervisor of that
 * name or creates one.
 *
 * The driver classes the request may name, the hosts running the migration
 * service, the regular-expression compiler, the state path and the password
 * encoder are parameters, and so are the uuid a new row gets and the
 * clock. The hypervisors table is the one of the database model: the
 * controller looks a name up, loads the row into a Hypervisor object and
 * saves it, or creates a new object.
 *
 * `create` as written goes wrong in five places; each is modelled as written
 * and as evidently intended, the choice made by a `Reading`.
 */
module HypervisorsApi {
  import opened Wrappers
  import opened PyValues
  import opened Exceptions
  import Strings
  import HypervisorViews
  import Objects
  import Db

  // ---------------------------------------------------------------------
  // `_get_hypervisors` and `show`
  // ---------------------------------------------------------------------

  /** The integer the `enabled` filter becomes: 1 for any spelling of `true`, else 0. */
  function EnabledValue(text: string): (v: Value)
    ensures v == VInt(1) || v == VInt(0)
    ensures v == VInt(1) <==> |text| == 4 && forall k :: 0 <= k < 4 ==> Strings.LowerChar(text[k]) == "true"[k]
  {
    var lowered := Strings.Lower(text);
    assert lowered == "true" <==> |text| == 4 && forall k :: 0 <= k < 4 ==> Strings.LowerChar(text[k]) == "true"[k] by {
      if |text| == 4 && forall k :: 0 <= k < 4 ==> Strings.LowerChar(text[k]) == "true"[k] {
        assert forall k :: 0 <= k < 4 ==> lowered[k] == "true"[k];
      }
    }
    if lowered == "true" then VInt(1) else VInt(0)
  }

  /**
   * The filters `_get_hypervisors` starts from: the request parameters,
   * with `enabled`, when given, turned into 1 or 0.
   */
  function EnabledFilter(params: map<string, string>): (filters: Dict)
    ensures filters.Keys == params.Keys
    ensures "enabled" in params ==> filters["enabled"] == EnabledValue(params["enabled"])
    ensures forall key :: key in params && key != "enabled" ==> filters[key] == VStr(params[key])
  {
    var copied := map key | key in params :: VStr(params[key]);
    if "enabled" in params then copied["enabled" := EnabledValue(params["enabled"])] else copied
  }

  /** `show`: any failure of the lookup is answered 404; a hypervisor found is shown in detail. */
  function Show(found: Result<Dict>): (r: Result<Dict>)
    ensures found.Err? ==> r.Err? && r.error.kind == HTTPNotFound
    ensures found.Ok? ==> r == HypervisorViews.Detail(found.value)
  {
    if found.Err? then Err(Exc(HTTPNotFound, "")) else HypervisorViews.Detail(found.value)
  }

  // ---------------------------------------------------------------------
  // the request and the driver
  // ---------------------------------------------------------------------

  /** How a driver class stands to the two base classes of guts/migration/driver.py. */
  datatype Family = SourceFamily | DestinationFamily | OtherFamily

  /**
   * A driver class `import_class` can load: its family, and what its
   * `get_driver_capab()` returns (None where that raises).
   */
  datatype DriverClass = DriverClass(family: Family, capabilities: Option<seq<Value>>)

  /** What `create` consults besides the request. */
  datatype Environment = Environment(
    classes: string -> Option<DriverClass>,
    migrationHosts: seq<string>,
    compiles: Value -> bool,
    statePath: string,
    encode: Value -> Value)

  /** Whether a step behaves as the code is written or as evidently intended. */
  datatype Reading = AsWritten | Corrected

  const NoName := "Hypervisor name cannot be None."
  const NoDriver := "Hypervisor driver cannot be None."
  const NoType := "Unabled to find hypervisor type."
  const NoAllowedHost := "Unable to load hypervisor. Reason: No valid allowed_host found."
  const NoCredentials := "Hypervisor credentials cannot be None."
  const InvalidRegex := "Invalid exclude regex."
  /** The NameError of the undefined `_LE`, which every error log of `create` calls. */
  const NoLE := "global name '_LE' is not defined"
  /** The NameError of the undefined `hypervisor` in the allowed-hosts message. */
  const NoHypervisorName := "global name 'hypervisor' is not defined"

  /** `body['hypervisor']`, which must be a dictionary. */
  function Properties(body: Dict): (r: Result<Dict>)
    ensures r.Ok? <==> "hypervisor" in body && body["hypervisor"].VDict?
    ensures r.Ok? ==> r.value == body["hypervisor"].entries
    ensures "hypervisor" !in body ==> r.Err? && r.error.kind == KeyError
  {
    if "hypervisor" !in body then Err(Exc(KeyError, "hypervisor"))
    else if !body["hypervisor"].VDict? then Err(Exc(TypeError, "indices must be integers"))
    else Ok(body["hypervisor"].entries)
  }

  /** The driver path a request names and the class it loads. */
  datatype LoadedDriver = LoadedDriver(path: string, cls: DriverClass)

  /**
   * The first checks: a name and a driver, both truthy, then the driver
   * class the driver path names (a path that is not a string cannot be
   * imported; an unknown one is a bad request).
   */
  function DriverOf(props: Dict, env: Environment): (r: Result<LoadedDriver>)
    ensures r.Ok? <==> && "name" in props && Truthy(props["name"])
                       && "driver" in props && Truthy(props["driver"]) && props["driver"].VStr?
                       && env.classes(props["driver"].s).Some?
    ensures r.Ok? ==> r.value == LoadedDriver(props["driver"].s, env.classes(props["driver"].s).value)
    ensures "name" in props && !Truthy(props["name"]) ==> r == Err(Exc(HTTPBadRequest, NoName))
    ensures "name" in props && Truthy(props["name"]) && "driver" in props && !Truthy(props["driver"]) ==>
      r == Err(Exc(HTTPBadRequest, NoDriver))
  {
    match HypervisorViews.Item(props, "name")
    case Err(e) => Err(e)
    case Ok(name) =>
      if !Truthy(name) then Err(Exc(HTTPBadRequest, NoName))
      else match HypervisorViews.Item(props, "driver")
        case Err(e) => Err(e)
        case Ok(driver) =>
          if !Truthy(driver) then Err(Exc(HTTPBadRequest, NoDriver))
          else if !driver.VStr? then Err(Exc(AttributeError, "object has no attribute 'rpartition'"))
          else match env.classes(driver.s)
            case None => Err(Exc(HTTPBadRequest, "No module named " + driver.s))
            case Some(cls) => Ok(LoadedDriver(driver.s, cls))
  }

  // ---------------------------------------------------------------------
  // the hypervisor type
  // ---------------------------------------------------------------------

  /**
   * The type as written: a source driver class is `'source'`; the
   * destination test asks whether the class is an instance of
   * DestinationDriver, which a class never is, so every other class is
   * rejected.
   */
  function TypeAsWritten(family: Family): (r: Result<string>)
    ensures r.Ok? <==> family == SourceFamily
    ensures r.Ok? ==> r.value == "source"
    ensures r.Err? ==> r == Err(Exc(HTTPBadRequest, NoType))
  {
    if family == SourceFamily then Ok("source") else Err(Exc(HTTPBadRequest, NoType))
  }

  /** The type as intended: `'source'` or `'destination'` by the class's base, otherwise a bad request. */
  function HypervisorType(family: Family): (r: Result<string>)
    ensures r.Ok? <==> family != OtherFamily
    ensures r == Ok("source") <==> family == SourceFamily
    ensures r == Ok("destination") <==> family == DestinationFamily
    ensures r.Err? ==> r == Err(Exc(HTTPBadRequest, NoType))
  {
    match family
    case SourceFamily => Ok("source")
    case DestinationFamily => Ok("destination")
    case OtherFamily => Err(Exc(HTTPBadRequest, NoType))
  }

  /** As written no destination hypervisor can be created; as intended one is. */
  lemma DestinationDriversRejectedAsWritten()
    ensures TypeAsWritten(DestinationFamily).Err?
    ensures HypervisorType(DestinationFamily) == Ok("destination")
    ensures forall family :: family != DestinationFamily ==> TypeAsWritten(family) == HypervisorType(family)
  {
  }

  function TypeStep(family: Family, reading: Reading): Result<string>
  {
    if reading == AsWritten then TypeAsWritten(family) else HypervisorType(family)
  }

  // ---------------------------------------------------------------------
  // allowed hosts
  // ---------------------------------------------------------------------

  /** The requested hosts that run the migration service, in order. */
  function KnownHosts(items: seq<Value>, hosts: seq<string>): (known: seq<string>)
    ensures forall h :: h in known <==> h in hosts && VStr(h) in items
    decreases |items|
  {
    if items == [] then []
    else
      var rest := KnownHosts(items[1..], hosts);
      assert forall v :: v in items <==> v == items[0] || v in items[1..];
      if items[0].VStr? && items[0].s in hosts then [items[0].s] + rest else rest
  }

  /** `list(set(xs))`: each element once; the model keeps first occurrences in order. */
  function Dedup(xs: seq<string>): (r: seq<string>)
    ensures forall x :: x in r <==> x in xs
    ensures forall i, j :: 0 <= i < j < |r| ==> r[i] != r[j]
    decreases |xs|
  {
    if xs == [] then []
    else
      var rest := Dedup(xs[..|xs| - 1]);
      var last := xs[|xs| - 1];
      assert forall x :: x in xs <==> x in xs[..|xs| - 1] || x == last;
      if last in rest then rest else rest + [last]
  }

  /** Whether every requested host runs the migration service. */
  predicate AllKnown(items: seq<Value>, hosts: seq<string>)
  {
    forall i :: 0 <= i < |items| ==> items[i].VStr? && items[i].s in hosts
  }

  /**
   * The allowed hosts stored as written: none requested means every
   * migration host; `"*"` means every migration host, and none running is
   * reported with a message naming the undefined `hypervisor`; otherwise
   * logging the first unknown host calls the undefined `_LE`.
   */
  function AllowedHostsAsWritten(allowed: Value, hosts: seq<string>): (r: Result<Value>)
    ensures !Truthy(allowed) ==> r == Ok(StrList(hosts))
    ensures Truthy(allowed) && allowed.VList? && VStr("*") in allowed.items ==>
      r == if hosts == [] then Err(Exc(NameError, NoHypervisorName)) else Ok(StrList(Dedup(hosts)))
    ensures Truthy(allowed) && allowed.VList? && VStr("*") !in allowed.items ==>
      r == if AllKnown(allowed.items, hosts) then Ok(StrList(Dedup(KnownHosts(allowed.items, hosts))))
           else Err(Exc(NameError, NoLE))
  {
    if !Truthy(allowed) then Ok(StrList(hosts))
    else if !allowed.VList? then Err(Exc(TypeError, "allowed_hosts must be a list"))
    else if VStr("*") in allowed.items then
      if hosts == [] then Err(Exc(NameError, NoHypervisorName)) else Ok(StrList(Dedup(hosts)))
    else if !AllKnown(allowed.items, hosts) then Err(Exc(NameError, NoLE))
    else
      AllKnownAreKept(allowed.items, hosts);
      Ok(StrList(Dedup(KnownHosts(allowed.items, hosts))))
  }

  /** When every requested host is known, the list of known hosts is not empty when the request is not. */
  lemma AllKnownAreKept(items: seq<Value>, hosts: seq<string>)
    requires items != [] && AllKnown(items, hosts)
    ensures KnownHosts(items, hosts) != []
  {
    assert items[0].s in KnownHosts(items, hosts);
  }

  /** The hosts an allowed-hosts request selects: every migration host for `"*"`, otherwise the known ones requested. */
  function Selected(items: seq<Value>, hosts: seq<string>): seq<string>
  {
    if VStr("*") in items then hosts else KnownHosts(items, hosts)
  }

  /**
   * The allowed hosts as intended: unknown requested hosts are ignored,
   * nothing left is a bad request, and what is left is stored once each.
   */
  function AllowedHosts(allowed: Value, hosts: seq<string>): (r: Result<Value>)
    ensures !Truthy(allowed) ==> r == Ok(StrList(hosts))
    ensures Truthy(allowed) && allowed.VList? ==>
      r == if Selected(allowed.items, hosts) == [] then Err(Exc(HTTPBadRequest, NoAllowedHost))
           else Ok(StrList(Dedup(Selected(allowed.items, hosts))))
  {
    if !Truthy(allowed) then Ok(StrList(hosts))
    else if !allowed.VList? then Err(Exc(TypeError, "allowed_hosts must be a list"))
    else
      var nodes := Selected(allowed.items, hosts);
      if nodes == [] then Err(Exc(HTTPBadRequest, NoAllowedHost)) else Ok(StrList(Dedup(nodes)))
  }

  /**
   * The hosts stored for a request that lists some: each once, and exactly
   * the migration hosts that are requested, or all of them for `"*"`; the
   * request fails exactly when no such host exists.
   */
  lemma AllowedHostsKept(items: seq<Value>, hosts: seq<string>)
    ensures var kept := Dedup(Selected(items, hosts));
      && (forall i, j :: 0 <= i < j < |kept| ==> kept[i] != kept[j])
      && (forall h :: h in kept <==> h in hosts && (VStr("*") in items || VStr(h) in items))
      && (Selected(items, hosts) == [] <==> forall h :: h in hosts ==> VStr("*") !in items && VStr(h) !in items)
  {
    var nodes := Selected(items, hosts);
    if nodes != [] {
      assert nodes[0] in nodes;
    }
  }

  /** The two readings agree on every request whose hosts are all known, or that asks for all of them. */
  lemma AllowedHostsAgreeOnValidRequests(allowed: Value, hosts: seq<string>)
    requires allowed.VList? && Truthy(allowed)
    requires VStr("*") in allowed.items ==> hosts != []
    requires VStr("*") !in allowed.items ==> AllKnown(allowed.items, hosts)
    ensures AllowedHostsAsWritten(allowed, hosts) == AllowedHosts(allowed, hosts)
  {
    if VStr("*") !in allowed.items {
      AllKnownAreKept(allowed.items, hosts);
    }
  }

  /** As written a request naming a host that runs no migration service fails with a NameError instead of ignoring it. */
  lemma UnknownHostFailsAsWritten(known: string, unknown: string)
    requires known != unknown && known != "*" && unknown != "*"
    ensures AllowedHostsAsWritten(VList([VStr(known), VStr(unknown)]), [known]) == Err(Exc(NameError, NoLE))
    ensures AllowedHosts(VList([VStr(known), VStr(unknown)]), [known]).Ok?
  {
    var items := [VStr(known), VStr(unknown)];
    assert !AllKnown(items, [known]) by {
      assert items[1].s !in [known];
    }
    assert VStr(known) in items;
  }

  function AllowedHostsStep(allowed: Value, hosts: seq<string>, reading: Reading): Result<Value>
  {
    if reading == AsWritten then AllowedHostsAsWritten(allowed, hosts) else AllowedHosts(allowed, hosts)
  }

  // ---------------------------------------------------------------------
  // exclude patterns and the conversion directory
  // ---------------------------------------------------------------------

  /**
   * An exclude pattern is checked when given: one that does not compile is
   * a bad request, except that as written logging it calls the undefined
   * `_LE`.
   */
  function ExcludeCheck(pattern: Value, compiles: Value -> bool, reading: Reading): (r: Outcome)
    ensures r.Fail? <==> Truthy(pattern) && !compiles(pattern)
    ensures r.Fail? && reading == AsWritten ==> r == Raise(NameError, NoLE)
    ensures r.Fail? && reading == Corrected ==> r == Raise(HTTPBadRequest, InvalidRegex)
  {
    if Truthy(pattern) && !compiles(pattern) then
      if reading == AsWritten then Raise(NameError, NoLE) else Raise(HTTPBadRequest, InvalidRegex)
    else Pass
  }

  /** The directory a hypervisor without one converts in: `<state_path>/migrations`. */
  function DefaultConversionDir(statePath: string): (dir: string)
    ensures |dir| >= |"migrations"| && dir[|dir| - |"migrations"|..] == "migrations"
  {
    Strings.PathJoin(statePath, "migrations")
  }

  /**
   * The key the default directory is stored under: as written the
   * misspelt `converson_dir`, as intended `conversion_dir`.
   */
  function ConversionDirKey(reading: Reading): string
  {
    if reading == AsWritten then "converson_dir" else "conversion_dir"
  }

  /** As written the default directory goes under a key that is no Hypervisor field, so it is never stored. */
  lemma DefaultDirectoryLostAsWritten()
    ensures ConversionDirKey(AsWritten) !in Objects.Fields(Objects.HypervisorObj)
    ensures ConversionDirKey(Corrected) in Objects.Fields(Objects.HypervisorObj)
  {
    assert "conversion_dir" in Objects.OwnFields(Objects.HypervisorObj);
    assert "converson_dir" !in Objects.OwnFields(Objects.HypervisorObj);
  }

  // ---------------------------------------------------------------------
  // capabilities
  // ---------------------------------------------------------------------

  /** The first index of `x` in `s`. */
  function FirstIndex(s: seq<Value>, x: Value): (k: nat)
    requires x in s
    ensures k < |s| && s[k] == x && forall j :: 0 <= j < k ==> s[j] != x
  {
    if s[0] == x then 0 else FirstIndex(s[1..], x) + 1
  }

  /** `s.remove(x)`: the first `x` taken out. */
  function RemoveFirst(s: seq<Value>, x: Value): (r: seq<Value>)
    requires x in s
    ensures |r| == |s| - 1
    ensures multiset(r) == multiset(s) - multiset{x}
    ensures forall i :: 0 <= i < |r| ==> r[i] == (if i < FirstIndex(s, x) then s[i] else s[i + 1])
  {
    var k := FirstIndex(s, x);
    assert s == s[..k] + [x] + s[k + 1..];
    s[..k] + s[k + 1..]
  }

  /** The message of an unsupported capability. */
  function Unsupported(capability: Value, driver: string): Exc
  {
    Exc(HTTPBadRequest, "Capability " + Render(capability) + " doesn't supported by the driver " + driver + ".")
  }

  /**
   * The capability loop as written, from position `i` of the list `given`
   * it walks and changes: an empty entry is removed (its first occurrence)
   * and the walk goes on at the next position, so the entry that moved into
   * the removed one's place is never looked at; a non-empty entry the
   * driver lacks is a bad request. The list left at the end is returned.
   */
  function ScanAsWritten(given: seq<Value>, i: nat, capabilities: seq<Value>, driver: string): Result<seq<Value>>
    decreases |given| - i
  {
    if i >= |given| then Ok(given)
    else
      var c := given[i];
      if !Truthy(c) then ScanAsWritten(RemoveFirst(given, c), i + 1, capabilities, driver)
      else if c !in capabilities then Err(Unsupported(c, driver))
      else ScanAsWritten(given, i + 1, capabilities, driver)
  }

  /** The loop of `create` over the given capabilities, as written. */
  method ScanCapabilitiesAsWritten(given: seq<Value>, capabilities: seq<Value>, driver: string) returns (r: Result<seq<Value>>)
    ensures r == ScanAsWritten(given, 0, capabilities, driver)
  {
    var list := given;
    var i := 0;
    while i < |list|
      invariant ScanAsWritten(list, i, capabilities, driver) == ScanAsWritten(given, 0, capabilities, driver)
      decreases |list| - i
    {
      var c := list[i];
      i := i + 1;
      if !Truthy(c) {
        list := RemoveFirst(list, c);
        continue;
      }
      if c !in capabilities {
        return Err(Unsupported(c, driver));
      }
    }
    r := Ok(list);
  }

  /** As written an unsupported capability right after an empty entry is accepted and stored. */
  lemma UnsupportedCapabilityAcceptedAsWritten(driver: string)
    ensures ScanAsWritten([VStr(""), VStr("bogus")], 0, [], driver) == Ok([VStr("bogus")])
    ensures CheckedCapabilities([VStr(""), VStr("bogus")], [], driver) == Err(Unsupported(VStr("bogus"), driver))
  {
    var given := [VStr(""), VStr("bogus")];
    assert FirstIndex(given, VStr("")) == 0;
    assert RemoveFirst(given, VStr("")) == [VStr("bogus")];
    assert CheckedCapabilities([VStr("bogus")], [], driver) == Err(Unsupported(VStr("bogus"), driver));
  }

  /** The non-empty entries of a list, in order. */
  function NonEmpty(given: seq<Value>): (kept: seq<Value>)
    ensures forall c :: c in kept <==> c in given && Truthy(c)
    decreases |given|
  {
    if given == [] then []
    else
      assert forall c :: c in given <==> c == given[0] || c in given[1..];
      if Truthy(given[0]) then [given[0]] + NonEmpty(given[1..]) else NonEmpty(given[1..])
  }

  /**
   * The capability check as intended: every empty entry is dropped, and
   * the first remaining one the driver lacks is a bad request.
   */
  function CheckedCapabilities(given: seq<Value>, capabilities: seq<Value>, driver: string): (r: Result<seq<Value>>)
    ensures r.Ok? <==> forall c :: c in given && Truthy(c) ==> c in capabilities
    ensures r.Ok? ==> r.value == NonEmpty(given)
    ensures r.Err? ==> exists c :: c in given && Truthy(c) && c !in capabilities && r.error == Unsupported(c, driver)
    decreases |given|
  {
    if given == [] then Ok([])
    else
      assert forall c :: c in given <==> c == given[0] || c in given[1..];
      var c := given[0];
      if Truthy(c) && c !in capabilities then Err(Unsupported(c, driver))
      else match CheckedCapabilities(given[1..], capabilities, driver)
        case Err(e) => Err(e)
        case Ok(rest) => Ok(if Truthy(c) then [c] + rest else rest)
  }

  /** Without empty entries the loop as written checks every entry, just as intended. */
  lemma {:induction false} ScanAgreesWithoutEmptyEntries(given: seq<Value>, i: nat, capabilities: seq<Value>, driver: string)
    requires i <= |given|
    requires forall c :: c in given ==> Truthy(c)
    ensures ScanAsWritten(given, i, capabilities, driver) ==
      (match CheckedCapabilities(given[i..], capabilities, driver)
       case Ok(_) => Ok(given)
       case Err(e) => Err(e))
    decreases |given| - i
  {
    if i < |given| {
      assert given[i..][0] == given[i] && given[i..][1..] == given[i + 1..];
      ScanAgreesWithoutEmptyEntries(given, i + 1, capabilities, driver);
    }
  }

  // ---------------------------------------------------------------------
  // credentials
  // ---------------------------------------------------------------------

  /**
   * The credentials stored: empty ones are a bad request, ones that are not
   * a dictionary have no `keys`, and a `password` entry is replaced by its
   * encoded form; every other entry is kept.
   */
  function Credentials(creds: Value, encode: Value -> Value): (r: Result<Value>)
    ensures !Truthy(creds) ==> r == Err(Exc(HTTPBadRequest, NoCredentials))
    ensures r.Ok? <==> Truthy(creds) && creds.VDict?
    ensures r.Ok? ==> r.value.VDict? && r.value.entries.Keys == creds.entries.Keys
    ensures r.Ok? ==> forall key :: key in creds.entries && key != "password" ==> r.value.entries[key] == creds.entries[key]
    ensures r.Ok? && "password" in creds.entries ==> r.value.entries["password"] == encode(creds.entries["password"])
  {
    if !Truthy(creds) then Err(Exc(HTTPBadRequest, NoCredentials))
    else if !creds.VDict? then Err(Exc(AttributeError, "object has no attribute 'keys'"))
    else if "password" in creds.entries then
      Ok(VDict(creds.entries["password" := encode(creds.entries["password"])]))
    else Ok(creds)
  }

  // ---------------------------------------------------------------------
  // the pipeline
  // ---------------------------------------------------------------------

  /** The state of `create` when it reaches the capability loop. */
  datatype Draft = Draft(props: Dict, driver: string, given: seq<Value>, capabilities: seq<Value>)

  /**
   * The given capabilities: the driver's when none are given, otherwise
   * the list given.
   */
  function GivenCapabilities(given: Value, capabilities: seq<Value>): (r: Result<seq<Value>>)
    ensures !Truthy(given) ==> r == Ok(capabilities)
    ensures Truthy(given) && given.VList? ==> r == Ok(given.items)
  {
    if !Truthy(given) then Ok(capabilities)
    else if given.VList? then Ok(given.items)
    else Err(Exc(TypeError, "capabilities must be a list"))
  }

  /** The exclude and conversion-directory steps of `create`, on properties that passed the earlier ones. */
  function Directories(props: Dict, env: Environment, reading: Reading): Result<Dict>
  {
    match HypervisorViews.Item(props, "exclude_resource_uuids")
    case Err(e) => Err(e)
    case Ok(uuids) =>
      var uuidCheck := ExcludeCheck(uuids, env.compiles, reading);
      if uuidCheck.Fail? then Err(uuidCheck.error)
      else match HypervisorViews.Item(props, "exclude_resource_names")
        case Err(e) => Err(e)
        case Ok(names) =>
          var nameCheck := ExcludeCheck(names, env.compiles, reading);
          if nameCheck.Fail? then Err(nameCheck.error)
          else match HypervisorViews.Item(props, "conversion_dir")
            case Err(e) => Err(e)
            case Ok(dir) =>
              if Truthy(dir) then Ok(props)
              else Ok(props[ConversionDirKey(reading) := VStr(DefaultConversionDir(env.statePath))])
  }

  /** Everything `create` does before the capability loop. */
  function Prepare(body: Dict, env: Environment, reading: Reading): Result<Draft>
  {
    match Properties(body)
    case Err(e) => Err(e)
    case Ok(props) =>
      match DriverOf(props, env)
      case Err(e) => Err(e)
      case Ok(found) =>
        var LoadedDriver(driver, cls) := found;
        match TypeStep(cls.family, reading)
        case Err(e) => Err(e)
        case Ok(kind) =>
          var typed := props["type" := VStr(kind)];
          match HypervisorViews.Item(typed, "allowed_hosts")
          case Err(e) => Err(e)
          case Ok(allowed) =>
            match AllowedHostsStep(allowed, env.migrationHosts, reading)
            case Err(e) => Err(e)
            case Ok(hosts) =>
              match Directories(typed["allowed_hosts" := hosts], env, reading)
              case Err(e) => Err(e)
              case Ok(placed) =>
                if cls.capabilities.None? then Err(Exc(HTTPNotFound, driver))
                else match HypervisorViews.Item(placed, "capabilities")
                  case Err(e) => Err(e)
                  case Ok(given) =>
                    match GivenCapabilities(given, cls.capabilities.value)
                    case Err(e) => Err(e)
                    case Ok(list) => Ok(Draft(placed, driver, list, cls.capabilities.value))
  }

  /** What `create` does after the capability loop: the checked list is stored, then the credentials. */
  function Complete(props: Dict, checked: seq<Value>, encode: Value -> Value): Result<Dict>
  {
    var listed := props["capabilities" := VList(checked)];
    match HypervisorViews.Item(listed, "credentials")
    case Err(e) => Err(e)
    case Ok(creds) =>
      match Credentials(creds, encode)
      case Err(e) => Err(e)
      case Ok(stored) => Ok(listed["credentials" := stored])
  }

  /** The properties `create` stores as written. */
  function NormalisedAsWritten(body: Dict, env: Environment): Result<Dict>
  {
    match Prepare(body, env, AsWritten)
    case Err(e) => Err(e)
    case Ok(d) => AfterDraftAsWritten(d, env.encode)
  }

  /** What `create` does from the capability loop on, as written. */
  function AfterDraftAsWritten(d: Draft, encode: Value -> Value): Result<Dict>
  {
    match ScanAsWritten(d.given, 0, d.capabilities, d.driver)
    case Err(e) => Err(e)
    case Ok(checked) => Complete(d.props, checked, encode)
  }

  /** The properties `create` stores as intended. */
  function Normalised(body: Dict, env: Environment): Result<Dict>
  {
    match Prepare(body, env, Corrected)
    case Err(e) => Err(e)
    case Ok(d) => AfterDraft(d, env.encode)
  }

  /** What `create` does from the capability loop on, as intended. */
  function AfterDraft(d: Draft, encode: Value -> Value): Result<Dict>
  {
    match CheckedCapabilities(d.given, d.capabilities, d.driver)
    case Err(e) => Err(e)
    case Ok(checked) => Complete(d.props, checked, encode)
  }

  /** The directory steps keep every property but the conversion directory, and leave one that is set. */
  lemma DirectoriesPlaced(props: Dict, env: Environment)
    requires Directories(props, env, Corrected).Ok?
    ensures var placed := Directories(props, env, Corrected).value;
      && placed.Keys == props.Keys
      && (forall key :: key in props && key != "conversion_dir" ==> placed[key] == props[key])
      && Truthy(placed["conversion_dir"])
  {
  }

  /** What passes the steps before the capability loop, as intended. */
  lemma PreparedDraft(body: Dict, env: Environment)
    requires Prepare(body, env, Corrected).Ok?
    ensures Properties(body).Ok? && DriverOf(Properties(body).value, env).Ok?
    ensures var props := Properties(body).value;
      var cls := DriverOf(props, env).value.cls;
      var d := Prepare(body, env, Corrected).value;
      && cls.family != OtherFamily && cls.capabilities.Some?
      && d.driver == props["driver"].s && d.capabilities == cls.capabilities.value
      && "name" in d.props && d.props["name"] == props["name"]
      && "driver" in d.props && d.props["driver"] == props["driver"]
      && "type" in d.props && d.props["type"] == VStr(HypervisorType(cls.family).value)
      && "allowed_hosts" in d.props && d.props["allowed_hosts"] == AllowedHosts(props["allowed_hosts"], env.migrationHosts).value
      && "conversion_dir" in d.props && Truthy(d.props["conversion_dir"])
      && ("credentials" in d.props <==> "credentials" in props)
      && ("credentials" in props ==> d.props["credentials"] == props["credentials"])
  {
    var props := Properties(body).value;
    var cls := DriverOf(props, env).value.cls;
    var typed := props["type" := VStr(HypervisorType(cls.family).value)];
    var hosts := AllowedHosts(props["allowed_hosts"], env.migrationHosts).value;
    DirectoriesPlaced(typed["allowed_hosts" := hosts], env);
  }

  /** After the loop the checked capabilities and the stored credentials replace what was given; nothing else changes. */
  lemma CompletedProperties(props: Dict, checked: seq<Value>, encode: Value -> Value)
    requires Complete(props, checked, encode).Ok?
    ensures "credentials" in props && Credentials(props["credentials"], encode).Ok?
    ensures var p := Complete(props, checked, encode).value;
      && p.Keys == props.Keys + {"capabilities"}
      && p["capabilities"] == VList(checked)
      && p["credentials"] == Credentials(props["credentials"], encode).value
      && forall key :: key in props && key != "capabilities" && key != "credentials" ==> p[key] == props[key]
  {
  }

  /** From the capability loop on: every stored capability is non-empty and the driver's, the credentials are encoded, nothing else changes. */
  lemma CompletedDraft(d: Draft, encode: Value -> Value)
    requires AfterDraft(d, encode).Ok?
    ensures "credentials" in d.props && Credentials(d.props["credentials"], encode).Ok?
    ensures var p := AfterDraft(d, encode).value;
      && p["capabilities"].VList?
      && (forall c :: c in p["capabilities"].items ==> Truthy(c) && c in d.capabilities)
      && p["credentials"] == Credentials(d.props["credentials"], encode).value
      && forall key :: key in d.props && key != "capabilities" && key != "credentials" ==> key in p && p[key] == d.props[key]
  {
    var checked := CheckedCapabilities(d.given, d.capabilities, d.driver).value;
    CompletedProperties(d.props, checked, encode);
  }

  /**
   * What an accepted request stores of what it gives: the name and driver
   * given, the type of the driver's family, the allowed hosts as selected
   * and a conversion directory.
   */
  lemma CreatedProperties(body: Dict, env: Environment, p: Dict)
    requires Normalised(body, env) == Ok(p)
    ensures Properties(body).Ok? && DriverOf(Properties(body).value, env).Ok?
    ensures "name" in p && "driver" in p && "type" in p && "allowed_hosts" in p && "conversion_dir" in p
    ensures "allowed_hosts" in Properties(body).value && AllowedHosts(Properties(body).value["allowed_hosts"], env.migrationHosts).Ok?
    ensures var props := Properties(body).value;
      var cls := DriverOf(props, env).value.cls;
      && p["name"] == props["name"] && Truthy(p["name"])
      && p["driver"] == props["driver"] && p["driver"].VStr?
      && cls.family != OtherFamily && cls.capabilities.Some?
      && p["type"] == VStr(if cls.family == SourceFamily then "source" else "destination")
      && p["allowed_hosts"] == AllowedHosts(props["allowed_hosts"], env.migrationHosts).value
      && Truthy(p["conversion_dir"])
  {
    var d := Prepare(body, env, Corrected).value;
    PreparedDraft(body, env);
    CompletedDraft(d, env.encode);
  }

  /**
   * What an accepted request stores besides: the non-empty capabilities,
   * each one the driver's, and the credentials with the password encoded.
   */
  lemma CreatedCapabilities(body: Dict, env: Environment, p: Dict)
    requires Normalised(body, env) == Ok(p)
    ensures Properties(body).Ok? && DriverOf(Properties(body).value, env).Ok?
    ensures "credentials" in Properties(body).value && DriverOf(Properties(body).value, env).value.cls.capabilities.Some?
    ensures "capabilities" in p && "credentials" in p && Credentials(Properties(body).value["credentials"], env.encode).Ok?
    ensures var props := Properties(body).value;
      var cls := DriverOf(props, env).value.cls;
      && p["capabilities"].VList?
      && (forall c :: c in p["capabilities"].items ==> Truthy(c) && c in cls.capabilities.value)
      && p["credentials"] == Credentials(props["credentials"], env.encode).value
  {
    var d := Prepare(body, env, Corrected).value;
    PreparedDraft(body, env);
    CompletedDraft(d, env.encode);
  }

  /** A request that gives a non-empty capability the driver lacks is refused, whatever else it gives. */
  lemma UnsupportedCapabilityRejected(body: Dict, env: Environment, c: Value)
    requires Prepare(body, env, Corrected).Ok?
    requires c in Prepare(body, env, Corrected).value.given && Truthy(c)
    requires c !in Prepare(body, env, Corrected).value.capabilities
    ensures Normalised(body, env).Err? && Normalised(body, env).error.kind == HTTPBadRequest
  {
  }

  // ---------------------------------------------------------------------
  // storing the hypervisor
  // ---------------------------------------------------------------------

  /** The fields of a Hypervisor object. */
  function HypervisorFields(): set<string>
  {
    Objects.Fields(Objects.HypervisorObj)
  }

  /** The fields of a Hypervisor object include those the detail view reads with `h[key]`. */
  lemma ViewKeysAreFields()
    ensures {"id", "name", "type", "driver", "capabilities", "enabled"} <= HypervisorFields()
  {
    assert {"id", "name", "type", "driver", "capabilities", "enabled"} <= Objects.OwnFields(Objects.HypervisorObj).Keys;
  }

  /**
   * The class the `except` around `get_by_name` catches before creating:
   * as written HypervisorNotFound, which the lookup never raises; as
   * intended ResourceNotFound, the class it raises for a missing name.
   */
  function MissCaught(reading: Reading): Kind
  {
    if reading == AsWritten then HypervisorNotFound else ResourceNotFound
  }

  /** As written, the `except` of `create` catches nothing the lookup by name raises. */
  lemma LookupErrorEscapesAsWritten(db: Db.Database, ctx: Option<Db.Context>, name: Value)
    ensures db.HypervisorGetByName(ctx, name).Err? ==>
      !IsA(db.HypervisorGetByName(ctx, name).error.kind, MissCaught(AsWritten))
  {
    var found := db.HypervisorGetByName(ctx, name);
    if found.Err? {
      LeafCaughtOnlyBySelf(found.error.kind, HypervisorNotFound);
    }
  }

  /** As intended, it catches exactly the lookup's error for a name no visible hypervisor has. */
  lemma MissCaughtAsIntended(db: Db.Database, ctx: Option<Db.Context>, name: Value)
    ensures db.HypervisorGetByName(ctx, name).Err? ==>
      (IsA(db.HypervisorGetByName(ctx, name).error.kind, MissCaught(Corrected)) <==>
       db.HypervisorGetByName(ctx, name).error == Db.NotFoundError(ResourceNotFound, name))
  {
    var found := db.HypervisorGetByName(ctx, name);
    if found.Err? {
      LeafCaughtOnlyBySelf(found.error.kind, ResourceNotFound);
    }
  }

  /** The Hypervisor fields the hypervisors table has no column for. */
  predicate Unstored(key: string)
  {
    key in {"host", "allowed_hosts", "exclude_resource_uuids", "exclude_resource_names", "conversion_dir", "enabled"}
  }

  lemma UnstoredAreNoColumns(key: string)
    requires Unstored(key)
    ensures key !in Db.Columns(Db.Hypervisors)
  {
  }

  lemma UnstoredAreFields(key: string)
    requires Unstored(key)
    ensures key in Objects.OwnFields(Objects.HypervisorObj) && key in HypervisorFields()
  {
  }

  lemma HypervisorFieldsAreNotIntegers(key: string)
    requires key in HypervisorFields()
    ensures Objects.FieldTypes(Objects.HypervisorObj)[key] != Objects.IntegerField
  {
  }

  lemma UnstoredAreNotDefaulted(key: string, now: int)
    requires Unstored(key)
    ensures key != "id" && key !in Db.Defaults(Db.Hypervisors, now)
  {
  }

  lemma UnstoredArePlain(key: string)
    requires Unstored(key)
    ensures Objects.FieldTypes(Objects.HypervisorObj)[key] in {Objects.StringField, Objects.BooleanField}
  {
    UnstoredAreFields(key);
    var own := Objects.OwnFields(Objects.HypervisorObj);
    assert own[key] in {Objects.StringField, Objects.BooleanField};
  }

  /**
   * A Hypervisor loaded from a row of the table has None for its host,
   * allowed hosts, exclusions, conversion directory and enabled flag:
   * they are fields of the object but no columns, so no row holds them.
   */
  lemma UnstoredFieldsLoadAsNone(row: Dict, key: string)
    requires row.Keys <= Db.Columns(Db.Hypervisors) && Unstored(key)
    ensures key in HypervisorFields() && key !in Db.Columns(Db.Hypervisors)
    ensures Objects.Loaded(Objects.HypervisorObj, row)[key] == VNone
  {
    UnstoredAreNoColumns(key);
    UnstoredAreFields(key);
    HypervisorFieldsAreNotIntegers(key);
    assert Get(row, key) == VNone;
  }

  /**
   * A created hypervisor is answered with the value its properties give
   * such a field, while the row stored for it keeps none.
   */
  lemma CreatedAnswerShowsUnstored(props: Dict, freshId: string, now: int, key: string)
    requires Unstored(key) && key in props && "id" !in props
    ensures var obj := Db.Defaults(Db.Hypervisors, now)
                       + Db.WithId(Objects.NaiveAll(Objects.FieldsIn(Objects.HypervisorObj, props)), freshId);
      && Objects.Loaded(Objects.HypervisorObj, obj)[key] == Objects.Naive(props[key])
      && Objects.Loaded(Objects.HypervisorObj, Db.Stored(Db.Hypervisors, obj))[key] == VNone
  {
    var values := Objects.NaiveAll(Objects.FieldsIn(Objects.HypervisorObj, props));
    var obj := Db.Defaults(Db.Hypervisors, now) + Db.WithId(values, freshId);
    UnstoredAreFields(key);
    UnstoredAreNotDefaulted(key, now);
    UnstoredArePlain(key);
    UnstoredFieldsLoadAsNone(Db.Stored(Db.Hypervisors, obj), key);
    assert values[key] == Objects.Naive(props[key]);
    assert obj[key] == values[key];
  }

  /**
   * The controller of the hypervisors API, over the database its objects
   * read and write.
   */
  class HypervisorsController {
    const db: Db.Database

    ghost predicate Valid()
      reads db
    {
      db.Valid()
    }

    constructor(db: Db.Database)
      ensures this.db == db
    {
      this.db := db;
    }

    /**
     * A hypervisor found by name, loaded from `row`, takes the fields
     * `changes` and is saved: no database call when there are none,
     * otherwise the update of the row with the object's id, which the
     * changes may themselves set. `written` is what the update returned;
     * the answer is the object's detail, or the error.
     */
    twostate predicate UpdatedSpec(ctx: Option<Db.Context>, row: Dict, changes: Dict, now: int,
                                   new r: Result<Dict>, new written: Result<Dict>)
      reads db
    {
      var attrs := Objects.Loaded(Objects.HypervisorObj, row) + changes;
      if changes == map[] then r == HypervisorViews.Detail(attrs) && unchanged(db)
      else
        && "id" in attrs
        && db.ChangeSpec(Db.Hypervisors, ctx, attrs["id"], Objects.NaiveAll(changes), now, false, written)
        && r == if written.Err? then Err(written.error) else HypervisorViews.Detail(attrs)
    }

    /**
     * A new Hypervisor built from the fields `changes` and created: refused
     * when they set `id`, otherwise inserted with the fresh id and answered
     * as reloaded from what the insert returned.
     */
    twostate predicate CreatedSpec(ctx: Option<Db.Context>, changes: Dict, freshId: string, now: int,
                                   new r: Result<Dict>, new written: Result<Dict>)
      reads db
    {
      if "id" in changes then r == Err(Objects.AlreadyCreated()) && unchanged(db)
      else
        && db.CreateSpec(Db.Hypervisors, ctx, Objects.NaiveAll(changes), freshId, now, written)
        && r == if written.Err? then Err(written.error)
                else HypervisorViews.Detail(Objects.Loaded(Objects.HypervisorObj, written.value))
    }

    /**
     * The end of `create` for accepted properties `props`: `get_by_name`;
     * a hypervisor found takes the properties and is saved; a lookup error
     * the `except` catches leads to a new Hypervisor created from them;
     * any other error propagates. Only the properties that are fields
     * take part; the others become plain attributes.
     */
    twostate predicate StoreSpec(ctx: Option<Db.Context>, props: Dict, freshId: string, now: int, reading: Reading,
                                 new r: Result<Dict>, new written: Result<Dict>)
      reads db
    {
      var found := old(db.HypervisorGetByName(ctx, Get(props, "name")));
      var changes := Objects.FieldsIn(Objects.HypervisorObj, props);
      if found.Ok? then UpdatedSpec(ctx, found.value, changes, now, r, written)
      else if IsA(found.error.kind, MissCaught(reading)) then CreatedSpec(ctx, changes, freshId, now, r, written)
      else r == Err(found.error) && unchanged(db)
    }

    method Store(ctx: Option<Db.Context>, props: Dict, freshId: string, now: int, reading: Reading)
      returns (r: Result<Dict>, ghost written: Result<Dict>)
      requires Valid()
      modifies db
      ensures Valid() && StoreSpec(ctx, props, freshId, now, reading, r, written)
    {
      written := Ok(map[]);
      var found := db.HypervisorGetByName(ctx, Get(props, "name"));
      if found.Ok? {
        r, written := SaveFound(ctx, found.value, props, now);
      } else if IsA(found.error.kind, MissCaught(reading)) {
        r, written := CreateNew(ctx, props, freshId, now);
      } else {
        r := Err(found.error);
      }
    }

    /**
     * `Hypervisor.get_by_name` having found `row`: the object loaded from
     * it, then `hypervisor_ref.update(props)` and `hypervisor_ref.save()`.
     */
    method SaveFound(ctx: Option<Db.Context>, row: Dict, props: Dict, now: int)
      returns (r: Result<Dict>, ghost written: Result<Dict>)
      requires Valid()
      modifies db
      ensures Valid() && UpdatedSpec(ctx, row, Objects.FieldsIn(Objects.HypervisorObj, props), now, r, written)
    {
      ghost var changes := Objects.FieldsIn(Objects.HypervisorObj, props);
      ghost var attrs := Objects.Loaded(Objects.HypervisorObj, row) + changes;
      var h := new Objects.VersionedObject(Objects.HypervisorObj, ctx);
      h.FromDbObject(ctx, row);
      h.Update(props);
      Objects.LoadedId(Objects.HypervisorObj, row);
      assert h.attrs == attrs && "id" in attrs && h.context == ctx && h.kind == Objects.HypervisorObj;
      var saved := h.Save(db, now);
      written := saved;
      assert changes != map[] ==>
        db.ChangeSpec(Db.Hypervisors, ctx, attrs["id"], Objects.NaiveAll(changes), now, false, saved);
      if saved.Err? {
        r := Err(saved.error);
      } else {
        r := HypervisorViews.Detail(h.attrs);
      }
    }

    /** `objects.Hypervisor(context=context, **props).create()`. */
    method CreateNew(ctx: Option<Db.Context>, props: Dict, freshId: string, now: int)
      returns (r: Result<Dict>, ghost written: Result<Dict>)
      requires Valid()
      modifies db
      ensures Valid() && CreatedSpec(ctx, Objects.FieldsIn(Objects.HypervisorObj, props), freshId, now, r, written)
    {
      var h := new Objects.VersionedObject(Objects.HypervisorObj, ctx);
      h.Update(props);
      ghost var changes := Objects.FieldsIn(Objects.HypervisorObj, props);
      var created := h.Create(db, freshId, now);
      written := created;
      assert "id" !in changes ==> db.CreateSpec(Db.Hypervisors, ctx, Objects.NaiveAll(changes), freshId, now, created);
      if created.Err? {
        r := Err(created.error);
      } else {
        assert h.attrs == Objects.Loaded(Objects.HypervisorObj, created.value);
        r := HypervisorViews.Detail(h.attrs);
      }
    }

    /**
     * `create` as written. Its capability loop is `ScanAsWritten`, the
     * function `ScanCapabilitiesAsWritten` is proved to compute. A name the
     * lookup does not find is never created: the lookup's error is the
     * answer.
     */
    method CreateAsWritten(ctx: Option<Db.Context>, body: Dict, env: Environment, freshId: string, now: int)
      returns (r: Result<Dict>, ghost written: Result<Dict>)
      requires Valid()
      modifies db
      ensures Valid()
      ensures NormalisedAsWritten(body, env).Err? ==> r == Err(NormalisedAsWritten(body, env).error) && unchanged(db)
      ensures NormalisedAsWritten(body, env).Ok? ==>
        StoreSpec(ctx, NormalisedAsWritten(body, env).value, freshId, now, AsWritten, r, written)
      ensures NormalisedAsWritten(body, env).Ok? ==>
        var found := old(db.HypervisorGetByName(ctx, Get(NormalisedAsWritten(body, env).value, "name")));
        found.Err? ==> r == Err(found.error) && unchanged(db)
    {
      written := Ok(map[]);
      var props := NormalisedAsWritten(body, env);
      if props.Err? {
        return Err(props.error), written;
      }
      LookupErrorEscapesAsWritten(db, ctx, Get(props.value, "name"));
      r, written := Store(ctx, props.value, freshId, now, AsWritten);
    }

    /** `create` as intended. */
    method Create(ctx: Option<Db.Context>, body: Dict, env: Environment, freshId: string, now: int)
      returns (r: Result<Dict>, ghost written: Result<Dict>)
      requires Valid()
      modifies db
      ensures Valid()
      ensures Normalised(body, env).Err? ==> r == Err(Normalised(body, env).error) && unchanged(db)
      ensures Normalised(body, env).Ok? ==> StoreSpec(ctx, Normalised(body, env).value, freshId, now, Corrected, r, written)
    {
      written := Ok(map[]);
      var props := Normalised(body, env);
      if props.Err? {
        return Err(props.error), written;
      }
      r, written := Store(ctx, props.value, freshId, now, Corrected);
    }
  }
}
