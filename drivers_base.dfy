/**
 * guts/migration/drivers/driver.py: the base classes of every migration
 * driver. A driver keeps the `host` and `configuration` it was given, an
 * empty stats dictionary and an `_initialized` flag; a source driver also
 * reads the comma-separated `exclude` option.
 *
 * A configuration object is the map of its options: an option that has
 * no default and was left unset reads None. The drivers and the managers
 * register the options they read (`append_config_values`), with one
 * exception: the OpenStack driver of guts/migration/drivers/openstack.py
 * reads `user_domain_name` (line 156), which only the source driver of
 * guts/migration/drivers/sources/openstack.py registers (line 53); the
 * model reads it like any other option.
 */
module MigrationDrivers {
  import opened Wrappers
  import opened PyValues
  import opened Exceptions
  import Strings

  type Config = Dict

  /** `configuration.<name>`. */
  function Opt(cfg: Config, name: string): Value
  {
    Get(cfg, name)
  }

  class MigrationDriver {
    var host: Value
    var configuration: Option<Config>
    var stats: Dict
    var initialized: bool

    /** `host` and `configuration` are `kwargs.get(...)`: None when the caller gave none. */
    constructor(host: Value, configuration: Option<Config>)
      ensures this.host == host && this.configuration == configuration
      ensures stats == map[] && !initialized
    {
      this.host := host;
      this.configuration := configuration;
      stats := map[];
      initialized := false;
    }
  }

  /**
   * `configuration.exclude.split(',')`: without a configuration, or with an
   * `exclude` that is not a string, the attribute lookup fails.
   */
  function ExcludeList(configuration: Option<Config>): (r: Result<seq<string>>)
    ensures r.Ok? <==> configuration.Some? && Opt(configuration.value, "exclude").VStr?
    ensures r.Err? ==> r.error.kind == AttributeError
    ensures r.Ok? ==> |r.value| >= 1 && forall i :: 0 <= i < |r.value| ==> ',' !in r.value[i]
    ensures r.Ok? && Opt(configuration.value, "exclude") == VStr("") ==> r.value == [""]
  {
    if configuration.None? then
      Err(Exc(AttributeError, "'NoneType' object has no attribute 'exclude'"))
    else
      var exclude := Opt(configuration.value, "exclude");
      if exclude.VStr? then Ok(Strings.Split(exclude.s, ','))
      else Err(Exc(AttributeError, "object has no attribute 'split'"))
  }

  /** Joining the exclude list with commas gives back the configured option. */
  lemma ExcludeRoundTrip(configuration: Option<Config>)
    requires ExcludeList(configuration).Ok?
    ensures Strings.Join(ExcludeList(configuration).value, ",") == Opt(configuration.value, "exclude").s
  {
    Strings.JoinSplit(Opt(configuration.value, "exclude").s, ',');
  }

  /** A uuid is excluded exactly when it is one of the comma-separated entries. */
  lemma ExcludedIsListed(configuration: Option<Config>, uuids: seq<string>)
    requires ExcludeList(configuration).Ok?
    requires forall i :: 0 <= i < |uuids| ==> ',' !in uuids[i]
    requires configuration.value["exclude"] == VStr(Strings.Join(uuids, ","))
    requires |uuids| >= 1
    ensures ExcludeList(configuration).value == uuids
  {
    Strings.SplitJoin(uuids, ',');
  }

  /** The NameError of the translation function `_`, which guts/migration/drivers/driver.py does not import. */
  const NoTranslator := "global name '_' is not defined"

  class SourceDriver {
    const driver: MigrationDriver
    const exclude: seq<string>

    constructor(driver: MigrationDriver, exclude: seq<string>)
      ensures this.driver == driver && this.exclude == exclude
    {
      this.driver := driver;
      this.exclude := exclude;
    }

    /**
     * The base `get_instances_list`, `get_volumes_list` and
     * `get_networks_list` as written: the module never imports `_`, so
     * building the message is a NameError before anything is raised.
     */
    function ListingAsWritten(name: string): (r: Result<seq<Dict>>)
      ensures r.Err? && r.error.kind == NameError
      ensures r != Listing(name)
    {
      Err(Exc(NameError, NoTranslator))
    }

    /** The base listings as intended, with `_` imported: NotImplementedError naming the method. */
    function Listing(name: string): (r: Result<seq<Dict>>)
      ensures r.Err? && r.error.kind == NotImplementedError
      ensures r.error.detail == "The method " + name + " is not implemented."
    {
      Err(Exc(NotImplementedError, "The method " + name + " is not implemented."))
    }
  }

  /**
   * `SourceDriver.__init__`: the base part is built, then the exclude list
   * is read; a failure there makes construction fail.
   */
  method NewSourceDriver(host: Value, configuration: Option<Config>) returns (r: Result<SourceDriver>)
    ensures r.Ok? <==> ExcludeList(configuration).Ok?
    ensures r.Err? ==> r.error == ExcludeList(configuration).error
    ensures r.Ok? ==> && fresh(r.value) && fresh(r.value.driver)
                      && r.value.exclude == ExcludeList(configuration).value
                      && r.value.driver.host == host && r.value.driver.configuration == configuration
                      && r.value.driver.stats == map[] && !r.value.driver.initialized
  {
    var driver := new MigrationDriver(host, configuration);
    var exclude := ExcludeList(configuration);
    if exclude.Err? {
      return Err(exclude.error);
    }
    var source := new SourceDriver(driver, exclude.value);
    r := Ok(source);
  }

  class DestinationDriver {
    const driver: MigrationDriver

    constructor(driver: MigrationDriver)
      ensures this.driver == driver
    {
      this.driver := driver;
    }
  }
}
