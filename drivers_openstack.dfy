/**
 * guts/migration/drivers/openstack.py: the OpenStack driver base, which
 * validates the configured credentials and derives the keystone version
 * from the auth URL, and the OpenStack source driver built on it, which
 * checks its capabilities, lists servers, volumes and networks, and
 * downloads a server's snapshot or a volume's image.
 *
 * The password encoder is the parameter `encode`. Opening the keystone
 * session and the clients is the outcome `session` of
 * `initialize_connection`; remote listings are inputs and downloads are
 * fixed step sequences whose first failing step is `failure`.
 */
module OpenStackDriver {
  import opened Wrappers
  import opened PyValues
  import opened Exceptions
  import opened MigrationDrivers
  import opened SourceListing
  import opened OpenStackResources
  import Strings

  const SupportedKeystoneVersions: seq<string> := ["v2.0", "v2", "v3", "v3.0"]
  const SupportedResources: seq<string> := ["instance", "volume", "network"]

  predicate IsV2(v: Value)
  {
    v == VStr("v2") || v == VStr("v2.0")
  }

  predicate IsV3(v: Value)
  {
    v == VStr("v3") || v == VStr("v3.0")
  }

  /** The version part of the auth URL: its last '/'-separated segment. */
  function UrlVersion(authUrl: string): string
  {
    Strings.LastSegment(authUrl, '/')
  }

  /**
   * The keystone version as meant: the auth URL's version when it is a
   * supported one, otherwise the configured `keystone_version`.
   */
  function KeystoneVersion(authUrl: string, configured: Value): (v: Value)
    ensures UrlVersion(authUrl) in SupportedKeystoneVersions ==> v == VStr(UrlVersion(authUrl))
    ensures UrlVersion(authUrl) !in SupportedKeystoneVersions ==> v == configured
  {
    var version := UrlVersion(authUrl);
    if version in SupportedKeystoneVersions then VStr(version) else configured
  }

  /**
   * The keystone version as written: falling back to the configured version
   * logs a warning through `_LW`, which the file never imports, so an auth
   * URL without a supported version raises NameError.
   */
  function KeystoneVersionAsWritten(authUrl: string, configured: Value): (r: Result<Value>)
    ensures r.Ok? <==> UrlVersion(authUrl) in SupportedKeystoneVersions
    ensures r.Ok? ==> r.value == KeystoneVersion(authUrl, configured)
    ensures r.Err? ==> r.error.kind == NameError
  {
    var version := UrlVersion(authUrl);
    if version in SupportedKeystoneVersions then Ok(VStr(version))
    else Err(Exc(NameError, "global name '_LW' is not defined"))
  }

  /**
   * What `OpenStackDriver.__init__` stores. `tenantName` is set only for a
   * v2 version, `domainName` and `projectId` only for a v3 one; an attribute
   * `__init__` never sets is None here.
   */
  datatype Credentials = Credentials(
    username: Value, password: Value, authUrl: string, keystoneVersion: Value,
    tenantName: Value, domainName: Value, projectId: Value)

  /** The checks that depend on the keystone version. */
  function Scoped(c: Credentials, cfg: Config): (r: Result<Credentials>)
    ensures r.Err? ==> r.error.kind == OpenStackException
    ensures r.Ok? ==> r.value.(tenantName := c.tenantName, domainName := c.domainName, projectId := c.projectId) == c
  {
    if IsV2(c.keystoneVersion) then
      var tenant := Opt(cfg, "tenant_name");
      if !Truthy(tenant) then Err(Exc(OpenStackException, "OpenStack tenant name cannot be None."))
      else Ok(c.(tenantName := tenant))
    else if IsV3(c.keystoneVersion) then
      var domain := Opt(cfg, "domain_name");
      var project := Opt(cfg, "project_id");
      if !Truthy(domain) then Err(Exc(OpenStackException, "Domain name cannot be None for V3 authentication."))
      else if !Truthy(project) then Err(Exc(OpenStackException, "Project id cannot be None for V3 authentication."))
      else Ok(c.(domainName := domain, projectId := project))
    else Ok(c)
  }

  /** `OpenStackDriver.__init__` as meant (with the configured-version fallback working). */
  function Init(cfg: Config, encode: Value -> Value): (r: Result<Credentials>)
    ensures !Truthy(Opt(cfg, "username")) ==> r == Err(Exc(OpenStackException, "OpenStack username cannot be None."))
    ensures Truthy(Opt(cfg, "username")) && !Truthy(Opt(cfg, "password")) ==>
      r == Err(Exc(OpenStackException, "OpenStack password cannot be None."))
    ensures Truthy(Opt(cfg, "username")) && Truthy(Opt(cfg, "password")) && !Truthy(Opt(cfg, "auth_url")) ==>
      r == Err(Exc(OpenStackException, "OpenStack auth url cannot be None."))
    ensures r.Err? ==> r.error.kind == OpenStackException || (r.error.kind == AttributeError && !Opt(cfg, "auth_url").VStr?)
    ensures r.Ok? ==>
      && r.value.username == Opt(cfg, "username") && Truthy(r.value.username)
      && Truthy(Opt(cfg, "password")) && r.value.password == encode(Opt(cfg, "password"))
      && Opt(cfg, "auth_url") == VStr(r.value.authUrl) && r.value.authUrl != ""
      && r.value.keystoneVersion == KeystoneVersion(r.value.authUrl, Opt(cfg, "keystone_version"))
    ensures Truthy(Opt(cfg, "username")) && Truthy(Opt(cfg, "password")) && Opt(cfg, "auth_url").VStr? && Opt(cfg, "auth_url").s != "" ==>
      var version := KeystoneVersion(Opt(cfg, "auth_url").s, Opt(cfg, "keystone_version"));
      (r.Ok? <==> && (IsV2(version) ==> Truthy(Opt(cfg, "tenant_name")))
                  && (IsV3(version) ==> Truthy(Opt(cfg, "domain_name")) && Truthy(Opt(cfg, "project_id"))))
    ensures r.Ok? && IsV2(r.value.keystoneVersion) ==>
      r.value.tenantName == Opt(cfg, "tenant_name") && Truthy(r.value.tenantName)
    ensures r.Ok? && IsV3(r.value.keystoneVersion) ==>
      && r.value.domainName == Opt(cfg, "domain_name") && Truthy(r.value.domainName)
      && r.value.projectId == Opt(cfg, "project_id") && Truthy(r.value.projectId)
  {
    var username := Opt(cfg, "username");
    var password := Opt(cfg, "password");
    var authUrl := Opt(cfg, "auth_url");
    if !Truthy(username) then Err(Exc(OpenStackException, "OpenStack username cannot be None."))
    else if !Truthy(password) then Err(Exc(OpenStackException, "OpenStack password cannot be None."))
    else if !Truthy(authUrl) then Err(Exc(OpenStackException, "OpenStack auth url cannot be None."))
    else if !authUrl.VStr? then Err(Exc(AttributeError, "object has no attribute 'split'"))
    else
      var version := KeystoneVersion(authUrl.s, Opt(cfg, "keystone_version"));
      Scoped(Credentials(username, encode(password), authUrl.s, version, VNone, VNone, VNone), cfg)
  }

  /** `OpenStackDriver.__init__` as written: the version fallback raises NameError. */
  function InitAsWritten(cfg: Config, encode: Value -> Value): (r: Result<Credentials>)
    ensures Opt(cfg, "auth_url").VStr? && UrlVersion(Opt(cfg, "auth_url").s) in SupportedKeystoneVersions ==>
      r == Init(cfg, encode)
    ensures Truthy(Opt(cfg, "username")) && Truthy(Opt(cfg, "password")) && Truthy(Opt(cfg, "auth_url"))
            && Opt(cfg, "auth_url").VStr? && UrlVersion(Opt(cfg, "auth_url").s) !in SupportedKeystoneVersions ==>
      r.Err? && r.error.kind == NameError
    ensures r.Ok? ==> r == Init(cfg, encode)
  {
    var username := Opt(cfg, "username");
    var password := Opt(cfg, "password");
    var authUrl := Opt(cfg, "auth_url");
    if !Truthy(username) || !Truthy(password) || !Truthy(authUrl) || !authUrl.VStr? then Init(cfg, encode)
    else
      var version := KeystoneVersionAsWritten(authUrl.s, Opt(cfg, "keystone_version"));
      if version.Err? then Err(version.error) else Init(cfg, encode)
  }

  /** `get_creds_params`. */
  function GetCredsParams(): (params: seq<string>)
    ensures |params| == 7 && forall i, j :: 0 <= i < j < |params| ==> params[i] != params[j]
    ensures forall p :: p in params <==>
      p in {"username", "password", "tenant_name", "auth_url", "keystone_version", "project_id", "domain_name"}
  {
    ["username", "password", "tenant_name", "auth_url", "keystone_version", "project_id", "domain_name"]
  }

  /** `get_driver_capab`. */
  function GetDriverCapab(): (capab: seq<string>)
    ensures |capab| == 3 && forall i, j :: 0 <= i < j < |capab| ==> capab[i] != capab[j]
    ensures forall c :: c in capab <==> c in SupportedResources
  {
    ["instance", "volume", "network"]
  }

  /**
   * `get_credentials`: the v2 and v3 shapes; for any other version
   * `hypervisor_creds` is never bound.
   */
  function GetCredentials(c: Credentials): (r: Result<Dict>)
    ensures IsV2(c.keystoneVersion) ==> r.Ok? && r.value == map[
      "username" := c.username, "password" := c.password, "tenant_name" := c.tenantName,
      "auth_url" := VStr(c.authUrl), "keystone_version" := c.keystoneVersion]
    ensures IsV3(c.keystoneVersion) ==> r.Ok? && r.value == map[
      "username" := c.username, "password" := c.password, "auth_url" := VStr(c.authUrl),
      "keystone_version" := c.keystoneVersion, "project_id" := c.projectId, "domain_name" := c.domainName]
    ensures !IsV2(c.keystoneVersion) && !IsV3(c.keystoneVersion) ==> r.Err? && r.error.kind == UnboundLocalError
  {
    if IsV2(c.keystoneVersion) then
      Ok(map["username" := c.username, "password" := c.password, "tenant_name" := c.tenantName,
             "auth_url" := VStr(c.authUrl), "keystone_version" := c.keystoneVersion])
    else if IsV3(c.keystoneVersion) then
      Ok(map["username" := c.username, "password" := c.password, "auth_url" := VStr(c.authUrl),
             "keystone_version" := c.keystoneVersion, "project_id" := c.projectId, "domain_name" := c.domainName])
    else Err(Exc(UnboundLocalError, "local variable 'hypervisor_creds' referenced before assignment"))
  }

  /** Every credential key is one `get_creds_params` announces. */
  lemma CredentialsWithinParams(c: Credentials)
    requires GetCredentials(c).Ok?
    ensures forall k :: k in GetCredentials(c).value ==> k in GetCredsParams()
  {
  }

  /**
   * For a validated driver whose configured version is one of the option's
   * choices ('v2', 'v3'), `get_credentials` succeeds: the key list is the one
   * of the derived version, the password is the encoded one, and every value
   * the version needs is set.
   */
  lemma ValidatedCredentials(cfg: Config, encode: Value -> Value)
    requires Init(cfg, encode).Ok?
    requires Opt(cfg, "keystone_version") == VStr("v2") || Opt(cfg, "keystone_version") == VStr("v3")
    ensures var c := Init(cfg, encode).value;
      && GetCredentials(c).Ok?
      && GetCredentials(c).value["password"] == encode(Opt(cfg, "password"))
      && GetCredentials(c).value["username"] == Opt(cfg, "username")
      && (IsV2(c.keystoneVersion) ==> Truthy(GetCredentials(c).value["tenant_name"]))
      && (IsV3(c.keystoneVersion) ==> Truthy(GetCredentials(c).value["project_id"]) && Truthy(GetCredentials(c).value["domain_name"]))
  {
    var c := Init(cfg, encode).value;
    KnownVersion(c.authUrl, Opt(cfg, "keystone_version"));
    CredentialsOfKnownVersion(c);
  }

  /** With 'v2' or 'v3' configured, the version is a v2 or a v3 one whatever the auth URL says. */
  lemma KnownVersion(authUrl: string, configured: Value)
    requires configured == VStr("v2") || configured == VStr("v3")
    ensures IsV2(KeystoneVersion(authUrl, configured)) || IsV3(KeystoneVersion(authUrl, configured))
  {
    var version := UrlVersion(authUrl);
    if version in SupportedKeystoneVersions {
      assert version == "v2.0" || version == "v2" || version == "v3" || version == "v3.0";
    }
  }

  /** For a v2 or v3 version, the credentials hold the stored username, password and scope. */
  lemma CredentialsOfKnownVersion(c: Credentials)
    requires IsV2(c.keystoneVersion) || IsV3(c.keystoneVersion)
    ensures GetCredentials(c).Ok?
    ensures GetCredentials(c).value["password"] == c.password && GetCredentials(c).value["username"] == c.username
    ensures IsV2(c.keystoneVersion) ==> GetCredentials(c).value["tenant_name"] == c.tenantName
    ensures IsV3(c.keystoneVersion) ==>
      GetCredentials(c).value["project_id"] == c.projectId && GetCredentials(c).value["domain_name"] == c.domainName
  {
  }

  // ---------------------------------------------------------------------
  // The capability check of OpenStackSourceDriver.__init__
  // ---------------------------------------------------------------------

  /** The position of the first capability that is not supported, or the length when there is none. */
  function FirstUnsupported(items: seq<string>): (k: nat)
    ensures k <= |items|
    ensures forall j :: 0 <= j < k ==> items[j] in SupportedResources
    ensures k < |items| ==> items[k] !in SupportedResources
    decreases |items|
  {
    if items == [] || items[0] !in SupportedResources then 0
    else 1 + FirstUnsupported(items[1..])
  }

  /** The loop's verdict: the first unsupported capability is reported. */
  function CapabilityCheck(items: seq<string>): (out: Outcome)
    ensures out.Pass? <==> forall i :: 0 <= i < |items| ==> items[i] in SupportedResources
    ensures out.Fail? ==> out == Raise(OpenStackException, "Unsupported migration resource type: " + items[FirstUnsupported(items)])
  {
    var k := FirstUnsupported(items);
    if k == |items| then Pass
    else Raise(OpenStackException, "Unsupported migration resource type: " + items[k])
  }

  /** The `for resource_type in self.capabilities` loop. */
  method CheckCapabilities(items: seq<string>) returns (out: Outcome)
    ensures out == CapabilityCheck(items)
  {
    var i := 0;
    while i < |items|
      invariant 0 <= i <= |items|
      invariant forall j :: 0 <= j < i ==> items[j] in SupportedResources
    {
      if items[i] !in SupportedResources {
        return Raise(OpenStackException, "Unsupported migration resource type: " + items[i]);
      }
      i := i + 1;
    }
    out := Pass;
  }

  /** The one-character strings iterating a Python string yields. */
  function Chars(s: string): (cs: seq<string>)
    ensures |cs| == |s| && forall i :: 0 <= i < |s| ==> cs[i] == [s[i]]
  {
    seq(|s|, i requires 0 <= i < |s| => [s[i]])
  }

  /**
   * What the loop iterates as written: `capabilities` is a string option,
   * so the loop sees its characters one by one.
   */
  function CapabilityItemsAsWritten(capabilities: Value): (r: Result<seq<string>>)
    ensures capabilities.VStr? ==> r == Ok(Chars(capabilities.s))
    ensures !capabilities.VStr? ==> r.Err? && r.error.kind == TypeError
  {
    if capabilities.VStr? then Ok(Chars(capabilities.s))
    else Err(Exc(TypeError, "object is not iterable"))
  }

  /** What the loop is meant to iterate: the comma-separated capability names. */
  function CapabilityItems(capabilities: Value): (r: Result<seq<string>>)
    ensures capabilities.VStr? ==> r == Ok(Strings.Split(capabilities.s, ','))
    ensures !capabilities.VStr? ==> r.Err? && r.error.kind == TypeError
  {
    if capabilities.VStr? then Ok(Strings.Split(capabilities.s, ','))
    else Err(Exc(TypeError, "object is not iterable"))
  }

  /** As written, every non-empty capabilities setting is rejected, starting with its first character. */
  lemma CapabilitiesAsWrittenRejectAll(s: string)
    requires s != ""
    ensures CapabilityCheck(CapabilityItemsAsWritten(VStr(s)).value) ==
      Raise(OpenStackException, "Unsupported migration resource type: " + [s[0]])
  {
    var items := Chars(s);
    assert |items[0]| == 1;
    assert items[0] !in SupportedResources;
    assert FirstUnsupported(items) == 0;
  }

  /** As meant, a comma-separated list of supported names passes the check. */
  lemma CapabilitiesAccepted(names: seq<string>)
    requires |names| >= 1
    requires forall i :: 0 <= i < |names| ==> names[i] in SupportedResources
    ensures CapabilityCheck(CapabilityItems(VStr(Strings.Join(names, ","))).value).Pass?
  {
    forall i | 0 <= i < |names|
      ensures ',' !in names[i]
    {
      SupportedHasNoComma(names[i]);
    }
    Strings.SplitJoin(names, ',');
    var items := Strings.Split(Strings.Join(names, ","), ',');
    assert items == names;
    assert FirstUnsupported(items) == |items|;
  }

  lemma SupportedHasNoComma(name: string)
    requires name in SupportedResources
    ensures ',' !in name
  {
    assert name == "instance" || name == "volume" || name == "network";
  }

  // ---------------------------------------------------------------------
  // OpenStackSourceDriver
  // ---------------------------------------------------------------------

  class OpenStackSourceDriver {
    const driver: MigrationDriver
    const credentials: Credentials
    /** The `conversion_dir` option. */
    const conversionDir: string
    /**
     * The source driver's exclude list. The file imports the base classes
     * of `guts.migration.driver`, whose `SourceDriver` sets no `exclude`:
     * None stands for that missing attribute.
     */
    const exclude: Option<seq<string>>
    /** Whether `initialize_connection` made the clients. */
    var connected: bool

    constructor(driver: MigrationDriver, credentials: Credentials, conversionDir: string, exclude: Option<seq<string>>)
      ensures this.driver == driver && this.credentials == credentials
      ensures this.conversionDir == conversionDir && this.exclude == exclude && !connected
    {
      this.driver := driver;
      this.credentials := credentials;
      this.conversionDir := conversionDir;
      this.exclude := exclude;
      connected := false;
    }

    /**
     * `initialize_connection`: it reads the configured `keystone_version`
     * (not the derived one). An unknown version is meant to raise
     * OpenStackException, but the exception is built with two positional
     * arguments, which `GutsException.__init__(self, message=None, **kwargs)`
     * refuses: a TypeError. A failing session or client creation propagates.
     */
    method InitializeConnection(cfg: Config, session: Outcome) returns (out: Outcome)
      modifies this
      ensures Opt(cfg, "auth_url") == VNone ==> out == Raise(ValueError, "Cannot authenticate without an auth_url")
      ensures Opt(cfg, "auth_url") != VNone && !IsV2(Opt(cfg, "keystone_version")) && !IsV3(Opt(cfg, "keystone_version")) ==>
        out.Fail? && out.error.kind == TypeError
      ensures Opt(cfg, "auth_url") != VNone && (IsV2(Opt(cfg, "keystone_version")) || IsV3(Opt(cfg, "keystone_version"))) ==>
        out == session
      ensures connected == (old(connected) || out.Pass?)
    {
      var version := Opt(cfg, "keystone_version");
      if Opt(cfg, "auth_url") == VNone {
        return Raise(ValueError, "Cannot authenticate without an auth_url");
      }
      if !IsV2(version) && !IsV3(version) {
        return Raise(TypeError, "__init__() takes at most 2 arguments (3 given)");
      }
      out := session;
      if out.Pass? {
        connected := true;
      }
    }

    /**
     * The body shared by the `get_*_list` methods. The base `do_setup` does
     * nothing, so without `initialize_connection` the client is missing; a
     * non-empty listing then reads the exclude list.
     */
    method ListItems<T(!new)>(items: seq<T>, idOf: T -> string, project: T -> Dict) returns (r: Result<seq<Dict>>)
      ensures !connected ==> r.Err? && r.error.kind == AttributeError
      ensures connected && exclude.None? ==> (r.Ok? <==> items == []) && (r.Ok? ==> r.value == [])
      ensures connected && exclude.None? && items != [] ==> r.error.kind == AttributeError
      ensures connected && exclude.Some? ==> r == Ok(Listing(items, idOf, project, exclude.value))
    {
      if !connected {
        return Err(Exc(AttributeError, "'OpenStackSourceDriver' object has no attribute 'nova'"));
      }
      if exclude.None? {
        if items == [] {
          return Ok([]);
        }
        return Err(Exc(AttributeError, "'OpenStackSourceDriver' object has no attribute 'exclude'"));
      }
      var records := ListLoop(items, idOf, project, exclude.value);
      r := Ok(records);
    }

    /** `get_instances_list`: `{name, id, status}` records. */
    method GetInstancesList(servers: seq<Server>) returns (r: Result<seq<Dict>>)
      ensures !connected ==> r.Err? && r.error.kind == AttributeError
      ensures connected && exclude.None? ==> (r.Ok? <==> servers == [])
      ensures connected && exclude.Some? ==> r == Ok(Listing(servers, ServerId, ServerRecord, exclude.value))
    {
      r := ListItems(servers, ServerId, ServerRecord);
    }

    /** `get_volumes_list`: `{name = display_name, id, size}` records. */
    method GetVolumesList(volumes: seq<CinderVolume>) returns (r: Result<seq<Dict>>)
      ensures !connected ==> r.Err? && r.error.kind == AttributeError
      ensures connected && exclude.None? ==> (r.Ok? <==> volumes == [])
      ensures connected && exclude.Some? ==> r == Ok(Listing(volumes, VolumeId, VolumeRecord, exclude.value))
    {
      r := ListItems(volumes, VolumeId, VolumeRecord);
    }

    /** `get_networks_list`: the nine-field network records. */
    method GetNetworksList(networks: seq<NovaNetwork>) returns (r: Result<seq<Dict>>)
      ensures !connected ==> r.Err? && r.error.kind == AttributeError
      ensures connected && exclude.None? ==> (r.Ok? <==> networks == [])
      ensures connected && exclude.Some? ==> r == Ok(Listing(networks, NetworkId, NetworkRecord, exclude.value))
    {
      r := ListItems(networks, NetworkId, NetworkRecord);
    }

    /**
     * `get_instance` as written: unconnected, `do_setup()` is called without
     * its context; a failure before the first image lookup reaches the
     * handler's `img` unbound; a later one is InstanceImageDownloadFailed.
     */
    function GetInstanceAsWritten(imageId: string, failure: Option<InstanceStep>): (r: Result<seq<Dict>>)
      reads this
      ensures !connected ==> r.Err? && r.error.kind == TypeError
      ensures connected && failure.Some? && failure.value in {GetServer, CreateImage, GetImage} ==>
        r.Err? && r.error.kind == UnboundLocalError
      ensures failure.None? || failure.value !in {GetServer, CreateImage, GetImage} ==> r == GetInstance(imageId, failure)
    {
      if !connected then Err(Exc(TypeError, "do_setup() takes exactly 2 arguments (1 given)"))
      else if failure.Some? && failure.value in {GetServer, CreateImage, GetImage} then
        Err(Exc(UnboundLocalError, "local variable 'img' referenced before assignment"))
      else GetInstance(imageId, failure)
    }

    /**
     * `get_instance` as meant: any failing step is InstanceImageDownloadFailed;
     * success yields `[{'0': <conversion_dir>/<image_id>}]`.
     */
    function GetInstance(imageId: string, failure: Option<InstanceStep>): (r: Result<seq<Dict>>)
      reads this
      ensures !connected ==> r.Err? && r.error.kind == TypeError
      ensures connected ==> (r.Ok? <==> failure.None?)
      ensures connected && failure.Some? ==> r.error.kind == InstanceImageDownloadFailed
      ensures r.Ok? ==> r.value == [map["0" := VStr(Strings.PathJoin(conversionDir, imageId))]]
    {
      if !connected then Err(Exc(TypeError, "do_setup() takes exactly 2 arguments (1 given)"))
      else if failure.Some? then Err(Exc(InstanceImageDownloadFailed, "Failed to download instance image from source"))
      else Ok([map["0" := VStr(Strings.PathJoin(conversionDir, imageId))]])
    }

    /** `get_volume`: any failing step is VolumeDownloadFailed; success yields `<conversion_dir>/<migration_ref_id>`. */
    function GetVolumeImage(migrationRefId: string, failure: Option<VolumeStep>): (r: Result<string>)
      reads this
      ensures !connected ==> r.Err? && r.error.kind == TypeError
      ensures connected ==> (r.Ok? <==> failure.None?)
      ensures connected && failure.Some? ==> r.error.kind == VolumeDownloadFailed
      ensures r.Ok? ==> r.value == Strings.PathJoin(conversionDir, migrationRefId)
    {
      if !connected then Err(Exc(TypeError, "do_setup() takes exactly 2 arguments (1 given)"))
      else if failure.Some? then Err(Exc(VolumeDownloadFailed, "Failed to download volume from source"))
      else Ok(Strings.PathJoin(conversionDir, migrationRefId))
    }
  }

  /**
   * `OpenStackSourceDriver.__init__` as written: the base part (which sets no
   * exclude list), the credential checks, then every character of the
   * capabilities string must be a supported resource.
   */
  method NewOpenStackSourceDriverAsWritten(host: Value, configuration: Option<Config>, encode: Value -> Value, conversionDir: string)
    returns (r: Result<OpenStackSourceDriver>)
    ensures configuration.None? ==> r.Err? && r.error.kind == AttributeError
    ensures configuration.Some? && InitAsWritten(configuration.value, encode).Err? ==>
      r == Err(InitAsWritten(configuration.value, encode).error)
    ensures r.Ok? ==> && configuration.Some? && fresh(r.value) && r.value.exclude.None?
                      && r.value.credentials == InitAsWritten(configuration.value, encode).value
                      && CapabilityItemsAsWritten(Opt(configuration.value, "capabilities")).Ok?
                      && CapabilityCheck(CapabilityItemsAsWritten(Opt(configuration.value, "capabilities")).value).Pass?
  {
    var driver := new MigrationDriver(host, configuration);
    if configuration.None? {
      return Err(Exc(AttributeError, "'NoneType' object has no attribute 'append_config_values'"));
    }
    var credentials := InitAsWritten(configuration.value, encode);
    if credentials.Err? {
      return Err(credentials.error);
    }
    var items := CapabilityItemsAsWritten(Opt(configuration.value, "capabilities"));
    if items.Err? {
      return Err(items.error);
    }
    var check := CheckCapabilities(items.value);
    if check.Fail? {
      return Err(check.error);
    }
    var source := new OpenStackSourceDriver(driver, credentials.value, conversionDir, None);
    r := Ok(source);
  }

  /**
   * `OpenStackSourceDriver.__init__` as meant: built on the source driver
   * base that reads the exclude list, with the version fallback working and
   * the capabilities taken as a comma-separated list.
   */
  method NewOpenStackSourceDriver(host: Value, configuration: Option<Config>, encode: Value -> Value, conversionDir: string)
    returns (r: Result<OpenStackSourceDriver>)
    ensures configuration.None? ==> r.Err? && r.error.kind == AttributeError
    ensures configuration.Some? && Init(configuration.value, encode).Err? && ExcludeList(configuration).Ok? ==>
      r == Err(Init(configuration.value, encode).error)
    ensures r.Ok? <==> && ExcludeList(configuration).Ok? && Init(configuration.value, encode).Ok?
                       && CapabilityItems(Opt(configuration.value, "capabilities")).Ok?
                       && CapabilityCheck(CapabilityItems(Opt(configuration.value, "capabilities")).value).Pass?
    ensures r.Ok? ==> && fresh(r.value) && r.value.exclude == Some(ExcludeList(configuration).value)
                      && r.value.credentials == Init(configuration.value, encode).value && !r.value.connected
  {
    var source := NewSourceDriver(host, configuration);
    if source.Err? {
      return Err(source.error);
    }
    var credentials := Init(configuration.value, encode);
    if credentials.Err? {
      return Err(credentials.error);
    }
    var items := CapabilityItems(Opt(configuration.value, "capabilities"));
    if items.Err? {
      return Err(items.error);
    }
    var check := CheckCapabilities(items.value);
    if check.Fail? {
      return Err(check.error);
    }
    var driver := new OpenStackSourceDriver(source.value.driver, credentials.value, conversionDir, Some(source.value.exclude));
    r := Ok(driver);
  }
}
