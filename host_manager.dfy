/**
 * guts/scheduler/host_manager.py: the scheduler's registry of per-host
 * capability reports, the hosts that have not reported yet, and the map of
 * `HostState` objects reconciled against the migration services.
 *
 * Filter and weigher classes are known by their `__name__`. The service
 * list that `_update_host_state_map` reads from the database and the
 * liveness test `utils.service_is_up` are parameters; the clock is `now`.
 */
module HostManagement {
  import opened Wrappers
  import opened PyValues
  import opened Exceptions
  import Strings

  /** `scheduler_default_filters` and `scheduler_default_weighers` as configured by default. */
  const DefaultFilters: seq<string> := ["CapacityFilter", "CapabilitiesFilter"]
  const DefaultWeighers: seq<string> := ["CapacityWeigher"]

  /** A migration service record as `ServiceList.get_all_by_topic` returns it. */
  datatype ServiceRecord = ServiceRecord(host: string, fields: Dict)

  /** `ReadOnlyDict(source)`: a copy of `source`, empty when there is none. */
  function ReadOnly(source: Option<Dict>): Dict
  {
    if source.Some? then source.value else map[]
  }

  /** `if capability:` on an optional dictionary. */
  predicate Reported(capability: Option<Dict>)
  {
    capability.Some? && |capability.value| > 0
  }

  class HostState {
    const host: string
    var capabilities: Dict
    var service: Dict
    var migrationHostName: Option<string>
    var totalCapacityGb: int
    /** Set by `update_backend`, which nothing in the scheduler calls; None until then. */
    var updated: Value

    constructor(host: string, capabilities: Option<Dict>, service: Option<Dict>)
      ensures this.host == host
      ensures this.capabilities == ReadOnly(capabilities) && this.service == ReadOnly(service)
      ensures migrationHostName == None && totalCapacityGb == 0 && updated == VNone
    {
      this.host := host;
      this.capabilities := ReadOnly(capabilities);
      this.service := ReadOnly(service);
      migrationHostName := None;
      totalCapacityGb := 0;
      updated := VNone;
    }

    /** `update_capabilities`: both maps are replaced by read-only copies. */
    method UpdateCapabilities(capabilities: Option<Dict>, service: Option<Dict>)
      modifies this
      ensures this.capabilities == ReadOnly(capabilities) && this.service == ReadOnly(service)
      ensures migrationHostName == old(migrationHostName) && totalCapacityGb == old(totalCapacityGb)
      ensures updated == old(updated)
    {
      this.capabilities := ReadOnly(capabilities);
      this.service := ReadOnly(service);
    }

    /**
     * `update_from_migration_capability`: the capabilities are replaced
     * before the timestamp is looked at, so an older report still replaces
     * them; the comparison itself has no effect either way. Reading the
     * timestamp of a report without one raises KeyError.
     */
    method UpdateFromMigrationCapability(capability: Option<Dict>, service: Option<Dict>) returns (out: Outcome)
      modifies this
      ensures this.capabilities == ReadOnly(capability) && this.service == ReadOnly(service)
      ensures migrationHostName == old(migrationHostName) && totalCapacityGb == old(totalCapacityGb)
      ensures updated == old(updated)
      ensures out.Fail? <==> Reported(capability) && Truthy(updated) && "timestamp" !in capability.value
      ensures out.Fail? ==> out.error.kind == KeyError
    {
      UpdateCapabilities(capability, service);
      out := Pass;
      if Reported(capability) {
        if Truthy(updated) {
          if "timestamp" !in capability.value {
            out := Raise(KeyError, "timestamp");
          }
        }
      }
    }
  }

  // ---------------------------------------------------------------------
  // filter and weigher name resolution
  // ---------------------------------------------------------------------

  /** The names argument of `_choose_host_filters` / `_choose_host_weighers`. */
  datatype Names = Unspecified | Scalar(name: string) | NameList(names: seq<string>)

  /** None means the configured defaults; a scalar is wrapped into a list. */
  function Requested(names: Names, defaults: seq<string>): (r: seq<string>)
    ensures names.Unspecified? ==> r == defaults
    ensures names.Scalar? ==> r == [names.name]
    ensures names.NameList? ==> r == names.names
  {
    match names
    case Unspecified => defaults
    case Scalar(name) => [name]
    case NameList(ns) => ns
  }

  /** The requested names no loaded class carries, in request order. */
  function Unknown(names: seq<string>, classes: seq<string>): seq<string>
  {
    if |names| == 0 then []
    else Unknown(names[..|names| - 1], classes)
         + (if names[|names| - 1] in classes then [] else [names[|names| - 1]])
  }

  /** The classes matched to the requested names, in request order. */
  function Matched(names: seq<string>, classes: seq<string>): seq<string>
  {
    if |names| == 0 then []
    else Matched(names[..|names| - 1], classes)
         + (if names[|names| - 1] in classes then [names[|names| - 1]] else [])
  }

  /** The whole lookup: the matched classes, or the error naming every unknown name. */
  function Choice(names: seq<string>, classes: seq<string>, notFound: Kind): Result<seq<string>>
  {
    if Unknown(names, classes) == [] then Ok(Matched(names, classes))
    else Err(Exc(notFound, Strings.Join(Unknown(names, classes), ", ")))
  }

  lemma {:induction false} UnknownMembers(names: seq<string>, classes: seq<string>)
    ensures forall n :: n in Unknown(names, classes) <==> n in names && n !in classes
    ensures Unknown(names, classes) == [] <==> forall i :: 0 <= i < |names| ==> names[i] in classes
  {
    if |names| > 0 {
      var init := names[..|names| - 1];
      UnknownMembers(init, classes);
      assert names == init + [names[|names| - 1]];
      forall i | 0 <= i < |init| ensures init[i] == names[i] { }
    }
  }

  lemma {:induction false} MatchedAllKnown(names: seq<string>, classes: seq<string>)
    requires forall i :: 0 <= i < |names| ==> names[i] in classes
    ensures Matched(names, classes) == names
  {
    if |names| > 0 {
      var init := names[..|names| - 1];
      MatchedAllKnown(init, classes);
      assert names == init + [names[|names| - 1]];
    }
  }

  /**
   * A lookup succeeds exactly when every requested name is a loaded class,
   * and then yields one class per name in the requested order; otherwise
   * the error names the unknown ones, joined by ", ".
   */
  lemma ChoiceMeaning(names: seq<string>, classes: seq<string>, notFound: Kind)
    ensures Choice(names, classes, notFound).Ok? <==> forall i :: 0 <= i < |names| ==> names[i] in classes
    ensures Choice(names, classes, notFound).Ok? ==> Choice(names, classes, notFound).value == names
    ensures Choice(names, classes, notFound).Err? ==>
      && Choice(names, classes, notFound).error.kind == notFound
      && |Unknown(names, classes)| > 0
      && (forall n :: n in Unknown(names, classes) <==> n in names && n !in classes)
  {
    UnknownMembers(names, classes);
    if Unknown(names, classes) == [] {
      MatchedAllKnown(names, classes);
    }
  }

  /** The inner `for cls in classes` search for a class of that name. */
  method FindClass(classes: seq<string>, name: string) returns (found: bool)
    ensures found <==> name in classes
  {
    found := false;
    var j := 0;
    while j < |classes|
      invariant 0 <= j <= |classes|
      invariant !found ==> name !in classes[..j]
      invariant found ==> name in classes
    {
      if classes[j] == name {
        found := true;
        break;
      }
      j := j + 1;
    }
  }

  /** The good/bad accumulation loop shared by both `_choose_*` methods. */
  method ChooseClasses(names: Names, defaults: seq<string>, classes: seq<string>, notFound: Kind)
    returns (r: Result<seq<string>>)
    ensures r == Choice(Requested(names, defaults), classes, notFound)
  {
    var requested := Requested(names, defaults);
    var good: seq<string> := [];
    var bad: seq<string> := [];
    var i := 0;
    while i < |requested|
      invariant 0 <= i <= |requested|
      invariant good == Matched(requested[..i], classes)
      invariant bad == Unknown(requested[..i], classes)
    {
      assert requested[..i + 1][..i] == requested[..i];
      var found := FindClass(classes, requested[i]);
      if found {
        good := good + [requested[i]];
      } else {
        bad := bad + [requested[i]];
      }
      i := i + 1;
    }
    assert requested[..i] == requested;
    if |bad| > 0 {
      r := Err(Exc(notFound, Strings.Join(bad, ", ")));
    } else {
      r := Ok(good);
    }
  }

  // ---------------------------------------------------------------------
  // reconciliation against the migration services
  // ---------------------------------------------------------------------

  /** Hosts of the services that are up and have reported capabilities. */
  function ActiveHosts(services: seq<ServiceRecord>, isUp: ServiceRecord -> bool, states: map<string, Dict>): set<string>
  {
    if |services| == 0 then {}
    else
      var last := services[|services| - 1];
      ActiveHosts(services[..|services| - 1], isUp, states)
      + (if isUp(last) && last.host in states then {last.host} else {})
  }

  /** Hosts of the services that are up and have not reported. */
  function SilentHosts(services: seq<ServiceRecord>, isUp: ServiceRecord -> bool, states: map<string, Dict>): set<string>
  {
    if |services| == 0 then {}
    else
      var last := services[|services| - 1];
      SilentHosts(services[..|services| - 1], isUp, states)
      + (if isUp(last) && last.host !in states then {last.host} else {})
  }

  /** The record of the last up service of host `h` among `services`, if there is one. */
  function LastUpService(services: seq<ServiceRecord>, isUp: ServiceRecord -> bool, h: string): Option<Dict>
  {
    if |services| == 0 then None
    else
      var last := services[|services| - 1];
      if isUp(last) && last.host == h then Some(last.fields) else LastUpService(services[..|services| - 1], isUp, h)
  }

  /** An active host is the host of an up service with a report; a silent one, of an up service without. */
  lemma {:induction false} HostsOfServices(services: seq<ServiceRecord>, isUp: ServiceRecord -> bool, states: map<string, Dict>)
    ensures forall h :: h in ActiveHosts(services, isUp, states) <==>
      h in states && exists i :: 0 <= i < |services| && isUp(services[i]) && services[i].host == h
    ensures forall h :: h in SilentHosts(services, isUp, states) <==>
      h !in states && exists i :: 0 <= i < |services| && isUp(services[i]) && services[i].host == h
    ensures ActiveHosts(services, isUp, states) !! SilentHosts(services, isUp, states)
  {
    if |services| > 0 {
      var init := services[..|services| - 1];
      HostsOfServices(init, isUp, states);
      forall h
        ensures h in ActiveHosts(services, isUp, states) <==>
          h in states && exists i :: 0 <= i < |services| && isUp(services[i]) && services[i].host == h
        ensures h in SilentHosts(services, isUp, states) <==>
          h !in states && exists i :: 0 <= i < |services| && isUp(services[i]) && services[i].host == h
      {
        if exists i :: 0 <= i < |services| && isUp(services[i]) && services[i].host == h {
          var i :| 0 <= i < |services| && isUp(services[i]) && services[i].host == h;
          if i < |init| {
            assert init[i] == services[i];
          }
        }
        if exists i :: 0 <= i < |init| && isUp(init[i]) && init[i].host == h {
          var i :| 0 <= i < |init| && isUp(init[i]) && init[i].host == h;
          assert services[i] == init[i];
        }
      }
    }
  }

  class HostManager {
    /** The names of the loaded filter and weigher classes, and the configured defaults. */
    const filterClasses: seq<string>
    const weightClasses: seq<string>
    const defaultFilters: seq<string>
    const defaultWeighers: seq<string>
    /** `service_states`: the latest report of each host, stamped with its arrival time. */
    var serviceStates: map<string, Dict>
    var hostStateMap: map<string, HostState>
    /** `_no_capabilities_hosts`. */
    var noCapabilitiesHosts: set<string>

    /** Each host's state object is its own, and every report carries its timestamp. */
    predicate Valid()
      reads this, hostStateMap.Values
    {
      && (forall h :: h in hostStateMap ==> hostStateMap[h].host == h)
      && (forall h :: h in serviceStates ==> "timestamp" in serviceStates[h])
    }

    /** The constructor reconciles once, with no reports received yet. */
    constructor(filterClasses: seq<string>, weightClasses: seq<string>, defaultFilters: seq<string>,
                defaultWeighers: seq<string>, services: seq<ServiceRecord>, isUp: ServiceRecord -> bool)
      ensures Valid()
      ensures this.filterClasses == filterClasses && this.weightClasses == weightClasses
      ensures this.defaultFilters == defaultFilters && this.defaultWeighers == defaultWeighers
      ensures serviceStates == map[] && hostStateMap == map[]
      ensures noCapabilitiesHosts == SilentHosts(services, isUp, map[])
    {
      this.filterClasses := filterClasses;
      this.weightClasses := weightClasses;
      this.defaultFilters := defaultFilters;
      this.defaultWeighers := defaultWeighers;
      serviceStates := map[];
      hostStateMap := map[];
      noCapabilitiesHosts := {};
      new;
      UpdateHostStateMap(services, isUp);
      HostsOfServices(services, isUp, map[]);
    }

    /** `_choose_host_filters`. */
    method ChooseHostFilters(names: Names) returns (r: Result<seq<string>>)
      ensures r == Choice(Requested(names, defaultFilters), filterClasses, SchedulerHostFilterNotFound)
    {
      r := ChooseClasses(names, defaultFilters, filterClasses, SchedulerHostFilterNotFound);
    }

    /** `_choose_host_weighers`. */
    method ChooseHostWeighers(names: Names) returns (r: Result<seq<string>>)
      ensures r == Choice(Requested(names, defaultWeighers), weightClasses, SchedulerHostWeigherNotFound)
    {
      r := ChooseClasses(names, defaultWeighers, weightClasses, SchedulerHostWeigherNotFound);
    }

    /** What `update_service_capabilities` leaves behind. */
    twostate predicate CapabilitiesUpdated(serviceName: Option<string>, host: string, capabilities: Dict, now: int)
      reads this
    {
      if serviceName != Some("migration") then
        unchanged(this)
      else
        && serviceStates == old(serviceStates)[host := capabilities["timestamp" := VTime(now, None)]]
        && noCapabilitiesHosts == old(noCapabilitiesHosts) - {host}
        && hostStateMap == old(hostStateMap)
    }

    /**
     * `update_service_capabilities`: only reports of the 'migration'
     * service are kept; the report is copied and stamped with the time it
     * arrived, and the host no longer counts as silent.
     */
    method UpdateServiceCapabilities(serviceName: Option<string>, host: string, capabilities: Dict, now: int)
      requires Valid()
      modifies this
      ensures Valid()
      ensures CapabilitiesUpdated(serviceName, host, capabilities, now)
    {
      if serviceName != Some("migration") {
        return;
      }
      var copy := capabilities["timestamp" := VTime(now, None)];
      serviceStates := serviceStates[host := copy];
      noCapabilitiesHosts := noCapabilitiesHosts - {host};
    }

    /** `has_all_capabilities`. */
    function HasAllCapabilities(): (r: bool)
      reads this
      ensures r <==> noCapabilitiesHosts == {}
    {
      |noCapabilitiesHosts| == 0
    }

    /**
     * `_update_host_state_map`: the silent hosts are replaced by the up
     * services without a report; the state map keeps exactly the up hosts
     * with a report, reusing their existing state objects, each holding
     * that host's latest report. Down services are skipped.
     */
    method UpdateHostStateMap(services: seq<ServiceRecord>, isUp: ServiceRecord -> bool)
      requires Valid()
      modifies this, hostStateMap.Values
      ensures Valid()
      ensures serviceStates == old(serviceStates)
      ensures noCapabilitiesHosts == SilentHosts(services, isUp, serviceStates)
      ensures hostStateMap.Keys == ActiveHosts(services, isUp, serviceStates)
      ensures forall h :: h in hostStateMap && h in old(hostStateMap) ==> hostStateMap[h] == old(hostStateMap[h])
      ensures forall h :: h in hostStateMap ==> h in serviceStates && hostStateMap[h].capabilities == serviceStates[h]
      ensures forall h :: h in hostStateMap ==> (LastUpService(services, isUp, h).Some? &&
                                         hostStateMap[h].service == ReadOnly(LastUpService(services, isUp, h)))
    {
      var states, active, silent := RefreshStates(hostStateMap, serviceStates, services, isUp);
      noCapabilitiesHosts := silent;
      hostStateMap := Evict(states, active);
    }
  }

  /**
   * The loop of `_update_host_state_map` over the services: a state object
   * is made for an up host with a report that has none, and every such
   * host's state takes its report.
   */
  method RefreshStates(current: map<string, HostState>, reports: map<string, Dict>,
                       services: seq<ServiceRecord>, isUp: ServiceRecord -> bool)
    returns (states: map<string, HostState>, active: set<string>, silent: set<string>)
    requires forall h :: h in current ==> current[h].host == h
    modifies current.Values
    ensures active == ActiveHosts(services, isUp, reports) && silent == SilentHosts(services, isUp, reports)
    ensures active <= states.Keys && active <= reports.Keys
    ensures forall h :: h in states ==> states[h].host == h
    ensures forall h :: h in current ==> h in states && states[h] == current[h]
    ensures forall h :: h in states ==> h in current || fresh(states[h])
    ensures forall h :: h in active ==> states[h].capabilities == reports[h]
    ensures forall h :: h in active ==> (LastUpService(services, isUp, h).Some? &&
                                 states[h].service == ReadOnly(LastUpService(services, isUp, h)))
  {
    states := current;
    active := {};
    silent := {};
    var i := 0;
    while i < |services|
      invariant 0 <= i <= |services|
      invariant active == ActiveHosts(services[..i], isUp, reports)
      invariant silent == SilentHosts(services[..i], isUp, reports)
      invariant active <= states.Keys && active <= reports.Keys
      invariant forall h :: h in states ==> states[h].host == h
      invariant forall h :: h in current ==> h in states && states[h] == current[h]
      invariant forall h :: h in states ==> h in current || fresh(states[h])
      invariant forall h :: h in active ==> states[h].capabilities == reports[h]
      invariant forall h :: h in active ==> LastUpService(services[..i], isUp, h) == Some(states[h].service)
    {
      HostsStep(services, i, isUp, reports);
      var host := services[i].host;
      if isUp(services[i]) && host in reports {
        states := Refresh(states, active, host, reports, services, i, isUp);
        active := active + {host};
      } else {
        LastUpKept(services, i, isUp, active);
        if isUp(services[i]) {
          silent := silent + {host};
        }
      }
      i := i + 1;
    }
    assert services[..i] == services;
  }

  /** `Visit` for the `i`-th service, keeping what the loop of `_update_host_state_map` knows of its active hosts. */
  method Refresh(states: map<string, HostState>, active: set<string>, host: string, reports: map<string, Dict>,
                 services: seq<ServiceRecord>, i: nat, isUp: ServiceRecord -> bool)
    returns (next: map<string, HostState>)
    requires i < |services| && isUp(services[i]) && services[i].host == host && host in reports
    requires forall h :: h in states ==> states[h].host == h
    requires active <= states.Keys && active <= reports.Keys
    requires forall h :: h in active ==> states[h].capabilities == reports[h]
    requires forall h :: h in active ==> LastUpService(services[..i], isUp, h) == Some(states[h].service)
    modifies if host in states then {states[host]} else {}
    ensures next.Keys == states.Keys + {host}
    ensures forall h :: h in states ==> next[h] == states[h]
    ensures host !in states ==> fresh(next[host])
    ensures forall h :: h in next ==> next[h].host == h
    ensures forall h :: h in active + {host} ==> next[h].capabilities == reports[h]
    ensures forall h :: h in active + {host} ==> LastUpService(services[..i + 1], isUp, h) == Some(next[h].service)
  {
    HostsStep(services, i, isUp, reports);
    next := Visit(states, host, reports[host], services[i].fields);
    forall h | h in active + {host}
      ensures LastUpService(services[..i + 1], isUp, h) == Some(next[h].service)
    {
      assert LastUpService(services[..i + 1], isUp, h) == LastUpStep(services, i, isUp, h);
    }
  }

  /**
   * One up service with a report: its host's state object is reused, or
   * made when the host has none, and takes the report.
   */
  method Visit(states: map<string, HostState>, host: string, report: Dict, service: Dict)
    returns (next: map<string, HostState>)
    requires forall h :: h in states ==> states[h].host == h
    modifies if host in states then {states[host]} else {}
    ensures next.Keys == states.Keys + {host}
    ensures forall h :: h in states ==> next[h] == states[h]
    ensures host !in states ==> fresh(next[host])
    ensures next[host].host == host && next[host].capabilities == report
    ensures next[host].service == ReadOnly(Some(service))
    ensures forall h :: h in states && h != host ==> states[h].capabilities == old(states[h].capabilities)
    ensures forall h :: h in states && h != host ==> states[h].service == old(states[h].service)
  {
    if host in states {
      var state := states[host];
      var out := state.UpdateFromMigrationCapability(Some(report), Some(service));
      next := states;
      KeysWithMember(states, host);
    } else {
      var state := new HostState(host, Some(report), Some(service));
      var out := state.UpdateFromMigrationCapability(Some(report), Some(service));
      next := states[host := state];
      KeysAfterStore(states, host, state);
    }
  }

  /** Adding a key a map already has to its keys changes nothing. */
  lemma KeysWithMember<V>(m: map<string, V>, k: string)
    requires k in m
    ensures m.Keys + {k} == m.Keys
  {
  }

  /** Storing at a key adds that key to the map's keys. */
  lemma KeysAfterStore<V>(m: map<string, V>, k: string, v: V)
    ensures m[k := v].Keys == m.Keys + {k}
  {
  }

  /** One more service adds its host to the active or the silent hosts, or to neither. */
  lemma HostsStep(services: seq<ServiceRecord>, i: nat, isUp: ServiceRecord -> bool, states: map<string, Dict>)
    requires i < |services|
    ensures ActiveHosts(services[..i + 1], isUp, states) == ActiveHosts(services[..i], isUp, states)
      + (if isUp(services[i]) && services[i].host in states then {services[i].host} else {})
    ensures SilentHosts(services[..i + 1], isUp, states) == SilentHosts(services[..i], isUp, states)
      + (if isUp(services[i]) && services[i].host !in states then {services[i].host} else {})
    ensures forall h :: LastUpService(services[..i + 1], isUp, h) == LastUpStep(services, i, isUp, h)
  {
    var prefix := services[..i + 1];
    assert prefix[..i] == services[..i];
    forall h
      ensures LastUpService(prefix, isUp, h) == LastUpStep(services, i, isUp, h)
    {
      assert prefix[|prefix| - 1] == services[i];
    }
  }

  /** A service that is down, or whose host is not among `hosts`, changes no host's last up service among `hosts`. */
  lemma LastUpKept(services: seq<ServiceRecord>, i: nat, isUp: ServiceRecord -> bool, hosts: set<string>)
    requires i < |services| && !(isUp(services[i]) && services[i].host in hosts)
    ensures forall h :: h in hosts ==> LastUpService(services[..i + 1], isUp, h) == LastUpService(services[..i], isUp, h)
  {
    var prefix := services[..i + 1];
    assert prefix[..i] == services[..i];
    assert prefix[|prefix| - 1] == services[i];
  }

  /** The last up service of `h` among the first `i + 1` services, given that among the first `i`. */
  function LastUpStep(services: seq<ServiceRecord>, i: nat, isUp: ServiceRecord -> bool, h: string): Option<Dict>
    requires i < |services|
  {
    if isUp(services[i]) && services[i].host == h then Some(services[i].fields) else LastUpService(services[..i], isUp, h)
  }

  /** The eviction loop of `_update_host_state_map`: `del states[host]` for every inactive host. */
  method Evict<V>(states: map<string, V>, active: set<string>) returns (kept: map<string, V>)
    ensures kept.Keys == states.Keys * active
    ensures forall h :: h in kept ==> kept[h] == states[h]
  {
    kept := states;
    var pending := states.Keys - active;
    while pending != {}
      invariant pending <= kept.Keys && pending !! active
      invariant kept.Keys == states.Keys * active + pending
      invariant forall h :: h in kept ==> h in states && kept[h] == states[h]
      decreases |pending|
    {
      var host :| host in pending;
      kept := kept - {host};
      pending := pending - {host};
    }
  }

  /** After a reconciliation, every up service has reported iff the registry says all capabilities are in. */
  lemma AllReportedAfterReconciliation(services: seq<ServiceRecord>, isUp: ServiceRecord -> bool, states: map<string, Dict>)
    ensures SilentHosts(services, isUp, states) == {} <==>
      forall i :: 0 <= i < |services| && isUp(services[i]) ==> services[i].host in states
  {
    HostsOfServices(services, isUp, states);
  }
}
