/**
 * The source and destination listings of guts/api/v1/sources.py and
 * guts/api/v1/destinations.py. The two controllers differ only in the
 * topic their services run under and the keys they answer with; each shows
 * a migration service as up or down by its last heartbeat and splits the
 * service host `"<host>@<hypervisor name>"` into its two parts.
 *
 * Times are whole seconds; the current time, the services a topic query
 * returns and the lookup of one service are parameters.
 */
module ServicesApi {
  import opened Wrappers
  import opened PyValues
  import opened Exceptions
  import Strings

  /** Which controller: the sources or the destinations. */
  datatype Side = SourceSide | DestinationSide

  /** The topic whose services a controller lists. */
  function Topic(side: Side): string
  {
    match side
    case SourceSide => "guts-source"
    case DestinationSide => "guts-destination"
  }

  /** The key `index` answers under. */
  function Collection(side: Side): string
  {
    match side
    case SourceSide => "sources"
    case DestinationSide => "destinations"
  }

  /** The key `show` answers under. */
  function Member(side: Side): string
  {
    match side
    case SourceSide => "source"
    case DestinationSide => "destination"
  }

  /** The attributes of a Service object the controllers read. */
  datatype ServiceRecord = ServiceRecord(id: Value, host: Value, binary: Value, updatedAt: Option<int>, createdAt: Option<int>)

  /** `abs(x)`. */
  function Abs(x: int): nat
  {
    if x < 0 then -x else x
  }

  /**
   * Whether the service is alive: its last update (its creation when it
   * was never updated) lies within `service_down_time` of now, on either
   * side. A service with neither time cannot be subtracted from now.
   */
  function Alive(service: ServiceRecord, now: int, downTime: int): (r: Result<bool>)
    ensures r.Err? <==> service.updatedAt.None? && service.createdAt.None?
    ensures r.Err? ==> r.error.kind == TypeError
    ensures service.updatedAt.Some? ==> r == Ok(Abs(now - service.updatedAt.value) <= downTime)
    ensures service.updatedAt.None? && service.createdAt.Some? ==> r == Ok(Abs(now - service.createdAt.value) <= downTime)
  {
    match service.updatedAt
    case Some(t) => Ok(Abs(now - t) <= downTime)
    case None =>
      match service.createdAt
      case Some(t) => Ok(Abs(now - t) <= downTime)
      case None => Err(Exc(TypeError, "unsupported operand type(s) for -: 'datetime.datetime' and 'NoneType'"))
  }

  /**
   * `host.split('@')[0]` and `host.split('@')[1]`: an AttributeError for a
   * host that is not a string, an IndexError for one without `'@'`.
   */
  function HostParts(host: Value): (r: Result<(string, string)>)
    ensures host.VStr? && '@' !in host.s ==> r.Err? && r.error.kind == IndexError
    ensures !host.VStr? ==> r.Err? && r.error.kind == AttributeError
    ensures r.Ok? ==> host.VStr? && '@' in host.s
    ensures r.Ok? ==> '@' !in r.value.0 && '@' !in r.value.1
    ensures r.Ok? ==> |r.value.0| < |host.s| && r.value.0 + "@" == host.s[..|r.value.0| + 1]
  {
    if !host.VStr? then Err(Exc(AttributeError, "object has no attribute 'split'"))
    else
      var parts := Strings.Split(host.s, '@');
      if |parts| < 2 then
        Strings.JoinSplit(host.s, '@');
        Err(Exc(IndexError, "list index out of range"))
      else
        PartsLeadTheString(host.s, '@');
        assert '@' in host.s by {
          if '@' !in host.s {
            Strings.SplitNoSep(host.s, '@');
          }
        }
        Ok((parts[0], parts[1]))
  }

  /** When a string holds the separator, its first part and the separator begin it. */
  lemma {:induction false} PartsLeadTheString(s: string, sep: char)
    requires |Strings.Split(s, sep)| >= 2
    ensures var first := Strings.Split(s, sep)[0];
      |first| < |s| && first + [sep] == s[..|first| + 1]
    decreases |s|
  {
    var rest := Strings.Split(s[1..], sep);
    if s[0] != sep {
      PartsLeadTheString(s[1..], sep);
    }
  }

  /**
   * A service host made of a host name and a hypervisor name, neither
   * holding `'@'`, splits into exactly those two.
   */
  lemma HostPartsOfServiceHost(host: string, hypervisorName: string)
    requires '@' !in host && '@' !in hypervisorName
    ensures HostParts(VStr(host + "@" + hypervisorName)) == Ok((host, hypervisorName))
  {
    Strings.SplitNoSep(host, '@');
    Strings.SplitNoSep(hypervisorName, '@');
    Strings.SplitConcat(host, '@', hypervisorName);
    assert host + "@" + hypervisorName == host + ['@'] + hypervisorName;
  }

  /** The keys of one listed service. */
  const EntryKeys: set<string> := {"status", "host", "hypervisor_name", "id"}

  /** The text `(alive and "Up") or "Down"`. */
  function StatusText(alive: bool): string
  {
    if alive then "Up" else "Down"
  }

  /**
   * The dictionary built for one service, in the order the controllers
   * build it: status, host, hypervisor name, id.
   */
  function Entry(service: ServiceRecord, now: int, downTime: int): (r: Result<Dict>)
    ensures r.Ok? <==> Alive(service, now, downTime).Ok? && HostParts(service.host).Ok?
  {
    match Alive(service, now, downTime)
    case Err(e) => Err(e)
    case Ok(alive) =>
      match HostParts(service.host)
      case Err(e) => Err(e)
      case Ok(parts) =>
        Ok(map["status" := VStr(StatusText(alive)), "host" := VStr(parts.0), "hypervisor_name" := VStr(parts.1),
               "id" := service.id])
  }

  /**
   * The entry of a service: the first failure among the liveness test and
   * the host split; otherwise exactly the four keys, `"Up"` exactly when the
   * service is alive and `"Down"` otherwise, the two parts of the host and
   * the id.
   */
  lemma EntryShows(service: ServiceRecord, now: int, downTime: int)
    ensures var r := Entry(service, now, downTime);
      && (Alive(service, now, downTime).Err? ==> r == Err(Alive(service, now, downTime).error))
      && (Alive(service, now, downTime).Ok? && HostParts(service.host).Err? ==> r == Err(HostParts(service.host).error))
      && (r.Ok? ==> r.value.Keys == EntryKeys)
      && (r.Ok? ==> (r.value["status"] == VStr("Up") <==> Alive(service, now, downTime).value))
      && (r.Ok? ==> r.value["status"] == VStr("Up") || r.value["status"] == VStr("Down"))
      && (r.Ok? ==> r.value["host"] == VStr(HostParts(service.host).value.0))
      && (r.Ok? ==> r.value["hypervisor_name"] == VStr(HostParts(service.host).value.1))
      && (r.Ok? ==> r.value["id"] == service.id)
  {
  }

  /**
   * The entries of `services`, in order, or the error of the first that
   * cannot be shown.
   */
  function Entries(services: seq<ServiceRecord>, now: int, downTime: int): (r: Result<seq<Value>>)
    ensures r.Ok? <==> forall i :: 0 <= i < |services| ==> Entry(services[i], now, downTime).Ok?
    ensures r.Ok? ==> |r.value| == |services|
    ensures r.Ok? ==> forall i :: 0 <= i < |services| ==> r.value[i] == VDict(Entry(services[i], now, downTime).value)
  {
    Collect(services, EntryOf(now, downTime))
  }

  /** `Entry` at a fixed time and down time. */
  function EntryOf(now: int, downTime: int): ServiceRecord -> Result<Dict>
  {
    s => Entry(s, now, downTime)
  }

  /** The results of `f` on `xs` as dictionaries, in order, or the error of the first that fails. */
  function Collect<T>(xs: seq<T>, f: T -> Result<Dict>): (r: Result<seq<Value>>)
    ensures r.Ok? <==> forall i :: 0 <= i < |xs| ==> f(xs[i]).Ok?
    ensures r.Ok? ==> |r.value| == |xs|
    ensures r.Ok? ==> forall i :: 0 <= i < |xs| ==> r.value[i] == VDict(f(xs[i]).value)
    decreases |xs|
  {
    if xs == [] then Ok([])
    else
      var before := Collect(xs[..|xs| - 1], f);
      var last := f(xs[|xs| - 1]);
      ResultsOfSnoc(xs, f, before, last);
      if before.Err? then Err(before.error)
      else if last.Err? then Err(last.error)
      else Ok(before.value + [VDict(last.value)])
  }

  /** The results of a list are those of all but its last element, then the last one's. */
  lemma ResultsOfSnoc<T>(xs: seq<T>, f: T -> Result<Dict>, before: Result<seq<Value>>, last: Result<Dict>)
    requires xs != []
    requires var init := xs[..|xs| - 1];
      && (before.Ok? <==> forall i :: 0 <= i < |init| ==> f(init[i]).Ok?)
      && (before.Ok? ==> |before.value| == |init|)
      && (before.Ok? ==> forall i :: 0 <= i < |init| ==> before.value[i] == VDict(f(init[i]).value))
    requires last == f(xs[|xs| - 1])
    ensures before.Ok? && last.Ok? <==> forall i :: 0 <= i < |xs| ==> f(xs[i]).Ok?
    ensures before.Ok? && last.Ok? ==>
      forall i :: 0 <= i < |xs| ==> (before.value + [VDict(last.value)])[i] == VDict(f(xs[i]).value)
  {
    var init := xs[..|xs| - 1];
    assert forall i :: 0 <= i < |init| ==> init[i] == xs[i];
  }

  /** Once one element fails, the later ones do not change the error. */
  lemma {:induction false} CollectStop<T>(xs: seq<T>, n: nat, f: T -> Result<Dict>)
    requires n <= |xs|
    requires Collect(xs[..n], f).Err?
    ensures Collect(xs, f) == Collect(xs[..n], f)
    decreases |xs|
  {
    if n < |xs| {
      var init := xs[..|xs| - 1];
      assert init[..n] == xs[..n];
      CollectStop(init, n, f);
    } else {
      assert xs[..n] == xs;
    }
  }

  /** One more element after a prefix that succeeded: its result is appended, or its error returned. */
  lemma CollectExtend<T>(xs: seq<T>, i: nat, f: T -> Result<Dict>, done: seq<Value>)
    requires i < |xs| && Collect(xs[..i], f) == Ok(done)
    ensures f(xs[i]).Err? ==> Collect(xs[..i + 1], f) == Err(f(xs[i]).error)
    ensures f(xs[i]).Ok? ==> Collect(xs[..i + 1], f) == Ok(done + [VDict(f(xs[i]).value)])
  {
    assert xs[..i + 1][..i] == xs[..i];
  }

  /**
   * `index`: the services the topic query returned, one entry each, in
   * order, under the controller's collection key; the first service that
   * cannot be shown raises.
   */
  method Index(side: Side, services: seq<ServiceRecord>, now: int, downTime: int) returns (r: Result<Dict>)
    ensures Entries(services, now, downTime).Err? ==> r == Err(Entries(services, now, downTime).error)
    ensures Entries(services, now, downTime).Ok? ==> r == Ok(map[Collection(side) := VList(Entries(services, now, downTime).value)])
  {
    var f := EntryOf(now, downTime);
    var listed: seq<Value> := [];
    for i := 0 to |services|
      invariant Collect(services[..i], f) == Ok(listed)
    {
      var entry := Entry(services[i], now, downTime);
      CollectExtend(services, i, f, listed);
      if entry.Err? {
        CollectStop(services, i + 1, f);
        return Err(entry.error);
      }
      listed := listed + [VDict(entry.value)];
    }
    assert services[..|services|] == services;
    r := Ok(map[Collection(side) := VList(listed)]);
  }

  /** Once one service cannot be shown, the later ones do not change the error. */
  lemma EntriesStop(services: seq<ServiceRecord>, n: nat, now: int, downTime: int)
    requires n < |services|
    requires Entry(services[n], now, downTime).Err?
    ensures Entries(services, now, downTime).Err?
    ensures Entries(services, now, downTime) == Entries(services[..n + 1], now, downTime)
  {
    var f := EntryOf(now, downTime);
    assert services[..n + 1][n] == services[n];
    assert Collect(services[..n + 1], f).Err?;
    CollectStop(services, n + 1, f);
  }

  /**
   * `show`: a NotFound from the lookup is answered 404 (other failures
   * propagate); otherwise the service's entry with its `binary` added,
   * under the controller's member key.
   */
  function Show(side: Side, found: Result<ServiceRecord>, now: int, downTime: int): (r: Result<Dict>)
    ensures found.Err? && IsA(found.error.kind, NotFound) ==> r.Err? && r.error.kind == HTTPNotFound
    ensures found.Err? && !IsA(found.error.kind, NotFound) ==> r == Err(found.error)
    ensures found.Ok? ==> (r.Ok? <==> Entry(found.value, now, downTime).Ok?)
    ensures found.Ok? && r.Err? ==> r == Err(Entry(found.value, now, downTime).error)
    ensures r.Ok? ==> r.value.Keys == {Member(side)}
    ensures r.Ok? ==> r.value[Member(side)] == VDict(Entry(found.value, now, downTime).value["binary" := found.value.binary])
  {
    if found.Err? then
      if IsA(found.error.kind, NotFound) then Err(Exc(HTTPNotFound, "")) else Err(found.error)
    else
      match Entry(found.value, now, downTime)
      case Err(e) => Err(e)
      case Ok(entry) => Ok(map[Member(side) := VDict(entry["binary" := found.value.binary])])
  }

  /** A service that `index` lists is shown by `show` with the same entry and its binary besides. */
  lemma ShowExtendsIndexEntry(side: Side, service: ServiceRecord, now: int, downTime: int)
    requires Entry(service, now, downTime).Ok?
    ensures var shown := Show(side, Ok(service), now, downTime).value[Member(side)].entries;
      var listed := Entry(service, now, downTime).value;
      && shown.Keys == listed.Keys + {"binary"}
      && (forall key :: key in listed ==> shown[key] == listed[key])
      && shown["binary"] == service.binary
  {
    EntryShows(service, now, downTime);
  }
}
