/**
 * The hypervisor views of guts/api/views/hypervisors.py: the summary and
 * detail records the API returns for a hypervisor, and the list views that
 * put one record per hypervisor under `"hypervisors"`.
 *
 * A hypervisor is read through its dictionary interface: `h[key]` fails
 * with KeyError when the key is missing, `h.get(key)` gives None.
 */
module HypervisorViews {
  import opened PyValues
  import opened Exceptions
  import Strings

  /** `h[key]`. */
  function Item(h: Dict, key: string): (r: Result<Value>)
    ensures r.Ok? <==> key in h
    ensures r.Ok? ==> r.value == h[key]
    ensures r.Err? ==> r.error.kind == KeyError
  {
    if key in h then Ok(h[key]) else Err(Exc(KeyError, key))
  }

  /** The status shown for the `enabled` flag. */
  function Status(enabled: Value): (status: string)
    ensures status == "Enabled" <==> Truthy(enabled)
    ensures status == "Enabled" || status == "Disabled"
  {
    if Truthy(enabled) then "Enabled" else "Disabled"
  }

  /** The keys a summary reads with `h[key]`. */
  const SummaryKeys: set<string> := {"id", "name", "type", "driver", "capabilities", "enabled"}

  /** The keys of a summary record. */
  const SummaryFields: set<string> := {"id", "name", "type", "driver", "capabilities", "status"}

  /** The keys of a detail record. */
  const DetailFields: set<string> := SummaryFields + {"created_at", "updated_at", "allowed_hosts", "registered_host",
                                                      "exclude_by_uuid", "exclude_by_names", "conversion_dir"}

  /** Whether `h` has every key a view reads with `h[key]`. */
  predicate HasViewKeys(h: Dict)
  {
    "id" in h && "name" in h && "type" in h && "driver" in h && "capabilities" in h && "enabled" in h
  }

  /** The entry of a summary. */
  function SummaryEntry(h: Dict): Dict
    requires HasViewKeys(h) && h["driver"].VStr?
  {
    map["id" := h["id"], "name" := h["name"], "type" := h["type"],
        "driver" := VStr(Strings.LastSegment(h["driver"].s, '.')),
        "capabilities" := h["capabilities"], "status" := VStr(Status(h["enabled"]))]
  }

  /**
   * `summary`: the six keys read in order, the driver cut to its class name
   * (`driver.split('.')[-1]`, an AttributeError on a driver that is not a
   * string), wrapped under `"hypervisor"`.
   */
  function Summary(h: Dict): (r: Result<Dict>)
    ensures r.Ok? <==> HasViewKeys(h) && h["driver"].VStr?
    ensures r.Err? ==> r.error.kind == KeyError || r.error.kind == AttributeError
    ensures HasViewKeys(h) && !h["driver"].VStr? ==> r.Err? && r.error.kind == AttributeError
    ensures !HasViewKeys(h) && ("driver" in h ==> h["driver"].VStr?) ==> r.Err? && r.error.kind == KeyError
    ensures r.Ok? ==> r.value == map["hypervisor" := VDict(SummaryEntry(h))]
  {
    if "id" !in h then Err(Exc(KeyError, "id"))
    else if "name" !in h then Err(Exc(KeyError, "name"))
    else if "type" !in h then Err(Exc(KeyError, "type"))
    else if "driver" !in h then Err(Exc(KeyError, "driver"))
    else if !h["driver"].VStr? then Err(Exc(AttributeError, "object has no attribute 'split'"))
    else if "capabilities" !in h then Err(Exc(KeyError, "capabilities"))
    else if "enabled" !in h then Err(Exc(KeyError, "enabled"))
    else Ok(map["hypervisor" := VDict(SummaryEntry(h))])
  }

  /** A summary shows exactly its six keys: four copied, the driver's class name and the status. */
  lemma SummaryShows(h: Dict)
    requires HasViewKeys(h) && h["driver"].VStr?
    ensures var e := SummaryEntry(h);
      && e.Keys == SummaryFields
      && e["id"] == h["id"] && e["name"] == h["name"] && e["type"] == h["type"]
      && e["capabilities"] == h["capabilities"]
      && e["driver"] == VStr(Strings.LastSegment(h["driver"].s, '.'))
      && e["status"] == VStr(Status(h["enabled"]))
  {
  }

  /** The entry of a detail. */
  function DetailEntry(h: Dict): Dict
    requires HasViewKeys(h)
  {
    map["id" := h["id"], "name" := h["name"], "type" := h["type"],
        "driver" := h["driver"], "capabilities" := h["capabilities"],
        "status" := VStr(Status(h["enabled"])),
        "created_at" := Get(h, "created_at"), "updated_at" := Get(h, "updated_at"),
        "allowed_hosts" := Get(h, "allowed_hosts"),
        "registered_host" := Get(h, "host"),
        "exclude_by_uuid" := Get(h, "exclude_resource_uuids"),
        "exclude_by_names" := Get(h, "exclude_resource_names"),
        "conversion_dir" := Get(h, "conversion_dir")]
  }

  /**
   * `detail`: the full driver, the status, and the optional attributes read
   * with `get`, wrapped under `"hypervisor"`; a missing key among those read
   * with `h[key]` is a KeyError.
   */
  function Detail(h: Dict): (r: Result<Dict>)
    ensures r.Ok? <==> HasViewKeys(h)
    ensures r.Err? ==> r.error.kind == KeyError
    ensures r.Ok? ==> r.value == map["hypervisor" := VDict(DetailEntry(h))]
  {
    if !HasViewKeys(h) then
      Err(Exc(KeyError, if "id" !in h then "id" else if "name" !in h then "name" else if "type" !in h then "type"
                        else if "driver" !in h then "driver" else if "capabilities" !in h then "capabilities"
                        else "enabled"))
    else Ok(map["hypervisor" := VDict(DetailEntry(h))])
  }

  /** A detail shows exactly the thirteen detail keys. */
  lemma DetailKeys(h: Dict)
    requires HasViewKeys(h)
    ensures DetailEntry(h).Keys == DetailFields
  {
  }

  /** A detail copies the six values the summary reads, the status made from `enabled`. */
  lemma DetailShows(h: Dict)
    requires HasViewKeys(h)
    ensures var e := DetailEntry(h);
      && e["id"] == h["id"] && e["name"] == h["name"] && e["type"] == h["type"]
      && e["driver"] == h["driver"] && e["capabilities"] == h["capabilities"]
      && e["status"] == VStr(Status(h["enabled"]))
  {
  }

  /**
   * The optional attributes of a detail are `get`s, None when absent; three
   * of them are shown under new names: `host` as `registered_host`,
   * `exclude_resource_uuids` as `exclude_by_uuid`, `exclude_resource_names`
   * as `exclude_by_names`.
   */
  lemma DetailRenames(h: Dict)
    requires HasViewKeys(h)
    ensures var e := DetailEntry(h);
      && e["created_at"] == Get(h, "created_at") && e["updated_at"] == Get(h, "updated_at")
      && e["allowed_hosts"] == Get(h, "allowed_hosts") && e["conversion_dir"] == Get(h, "conversion_dir")
      && e["registered_host"] == Get(h, "host")
      && e["exclude_by_uuid"] == Get(h, "exclude_resource_uuids")
      && e["exclude_by_names"] == Get(h, "exclude_resource_names")
  {
  }

  /**
   * The summary is the detail cut down: where the summary can be made, the
   * detail can too, and the two agree on every summary key but the driver,
   * which the summary shortens to the detail's last dotted segment.
   */
  lemma SummaryAbridgesDetail(h: Dict)
    requires Summary(h).Ok?
    ensures Detail(h).Ok?
    ensures var s := SummaryEntry(h);
      var d := DetailEntry(h);
      && s.Keys <= d.Keys
      && (forall key :: key in s && key != "driver" ==> s[key] == d[key])
      && d["driver"].VStr? && s["driver"] == VStr(Strings.LastSegment(d["driver"].s, '.'))
  {
    SummaryShows(h);
    DetailKeys(h);
    DetailShows(h);
    var s := SummaryEntry(h);
    var d := DetailEntry(h);
    forall key | key in s && key != "driver"
      ensures s[key] == d[key]
    {
      assert key in SummaryFields;
      if key == "id" {
      } else if key == "name" {
      } else if key == "type" {
      } else if key == "capabilities" {
      } else {
        assert key == "status";
      }
    }
  }

  /** A driver given by its dotted class path is summarised by its class name. */
  lemma SummaryShowsClassName(h: Dict, modulePath: string, className: string)
    requires HasViewKeys(h) && h["driver"] == VStr(modulePath + "." + className)
    requires '.' !in className
    ensures Summary(h).Ok? && SummaryEntry(h)["driver"] == VStr(className)
  {
    Strings.LastSegmentAfter(modulePath, '.', className);
    assert modulePath + "." + className == modulePath + ['.'] + className;
  }

  /** Whether the summary, or the detail, of `h` can be made. */
  predicate Viewable(h: Dict, detailed: bool)
  {
    HasViewKeys(h) && (detailed || h["driver"].VStr?)
  }

  /** The entry of the summary, or the detail, of `h`. */
  function Entry(h: Dict, detailed: bool): Dict
    requires Viewable(h, detailed)
  {
    if detailed then DetailEntry(h) else SummaryEntry(h)
  }

  /** The record `func(request, hypervisor)['hypervisor']` of one hypervisor. */
  function Record(h: Dict, detailed: bool): (r: Result<Value>)
    ensures r.Ok? <==> Viewable(h, detailed)
    ensures r.Err? ==> r.error.kind == KeyError || r.error.kind == AttributeError
    ensures r.Ok? ==> r.value == VDict(Entry(h, detailed))
  {
    var view := if detailed then Detail(h) else Summary(h);
    if view.Err? then Err(view.error) else Ok(view.value["hypervisor"])
  }

  /**
   * The comprehension of `_list_view`: one record per hypervisor, in order;
   * the first hypervisor whose view fails raises.
   */
  function Records(hs: seq<Dict>, detailed: bool): (r: Result<seq<Value>>)
    ensures r.Ok? <==> forall i :: 0 <= i < |hs| ==> Record(hs[i], detailed).Ok?
    ensures r.Ok? ==> |r.value| == |hs|
    ensures r.Ok? ==> forall i :: 0 <= i < |hs| ==> r.value[i] == Record(hs[i], detailed).value
    ensures r.Err? ==> exists i :: 0 <= i < |hs| && Record(hs[i], detailed) == Err(r.error)
    decreases |hs|
  {
    if hs == [] then Ok([])
    else
      var first := Record(hs[0], detailed);
      if first.Err? then Err(first.error)
      else
        var rest := Records(hs[1..], detailed);
        RecordsOfTail(hs, detailed, rest);
        if rest.Err? then Err(rest.error) else Ok([first.value] + rest.value)
  }

  /** How the records of the tail relate to the hypervisors after the first. */
  lemma RecordsOfTail(hs: seq<Dict>, detailed: bool, rest: Result<seq<Value>>)
    requires hs != []
    requires rest.Ok? <==> forall i :: 0 <= i < |hs[1..]| ==> Record(hs[1..][i], detailed).Ok?
    requires rest.Ok? ==> |rest.value| == |hs| - 1
    requires rest.Ok? ==> forall i :: 0 <= i < |hs[1..]| ==> rest.value[i] == Record(hs[1..][i], detailed).value
    requires rest.Err? ==> exists i :: 0 <= i < |hs[1..]| && Record(hs[1..][i], detailed) == Err(rest.error)
    ensures rest.Ok? <==> forall i :: 0 < i < |hs| ==> Record(hs[i], detailed).Ok?
    ensures rest.Ok? ==> forall i :: 0 < i < |hs| ==> rest.value[i - 1] == Record(hs[i], detailed).value
    ensures rest.Err? ==> exists i :: 0 < i < |hs| && Record(hs[i], detailed) == Err(rest.error)
  {
    assert forall i :: 0 < i < |hs| ==> hs[i] == hs[1..][i - 1];
    if rest.Err? {
      var i :| 0 <= i < |hs[1..]| && Record(hs[1..][i], detailed) == Err(rest.error);
      assert hs[i + 1] == hs[1..][i];
    }
  }

  /**
   * `_list_view`: the records under the one key `"hypervisors"`; the count
   * argument is not used. `summary_list` is the list view of the
   * summaries, `detailed` false, and `detail_list` that of the details.
   */
  function ListView(hs: seq<Dict>, detailed: bool): (r: Result<Dict>)
    ensures r.Ok? <==> Records(hs, detailed).Ok?
    ensures r.Err? ==> r.error == Records(hs, detailed).error
    ensures r.Ok? ==> r.value == map["hypervisors" := VList(Records(hs, detailed).value)]
  {
    match Records(hs, detailed)
    case Err(e) => Err(e)
    case Ok(records) => Ok(map["hypervisors" := VList(records)])
  }

  /** A summary list can always be detailed, with the same number of records in the same order of hypervisors. */
  lemma SummaryListAbridgesDetailList(hs: seq<Dict>)
    requires ListView(hs, false).Ok?
    ensures ListView(hs, true).Ok?
    ensures |ListView(hs, false).value["hypervisors"].items| == |ListView(hs, true).value["hypervisors"].items| == |hs|
  {
    forall i | 0 <= i < |hs| ensures Record(hs[i], true).Ok? {
      assert Record(hs[i], false).Ok?;
    }
  }
}
