/**
 * The remote OpenStack resources the source drivers list (Nova servers and
 * networks, Cinder volumes), the records their `get_*_list` methods make of
 * them, the session setup of the source and destination drivers, and the
 * authentication options of the `glance` and `nova` command lines they run.
 */
module OpenStackResources {
  import opened PyValues
  import opened Exceptions
  import opened MigrationDrivers

  datatype Server = Server(id: string, name: Value, status: Value)

  datatype CinderVolume = CinderVolume(id: string, displayName: Value, size: Value)

  datatype NovaNetwork = NovaNetwork(
    id: string, netLabel: Value, bridge: Value, gateway: Value, cidr: Value,
    enableDhcp: Value, dhcpServer: Value, dns1: Value)

  /** The remote steps of a server download (`get_instance`), in the order they run. */
  datatype InstanceStep = GetServer | CreateImage | GetImage | WaitActive | Download | DeleteImage

  /** The remote steps of a volume download (`get_volume`), in the order they run. */
  datatype VolumeStep = GetVolume | UploadToImage | ReadImageId | GetVolumeImage | WaitVolumeImage | DownloadVolume | DeleteVolumeImage

  /**
   * The `do_setup` of the OpenStack source and destination drivers: a
   * session is made only for the keystone versions 'v2' and 'v3', and for
   * any other version `sess` is read unbound.
   */
  function SetupOutcome(cfg: Config): (out: Outcome)
    ensures Opt(cfg, "auth_url") == VNone ==> out == Raise(ValueError, "Cannot authenticate without an auth_url")
    ensures out.Pass? <==> Opt(cfg, "auth_url") != VNone && (Opt(cfg, "keystone_version") == VStr("v2") || Opt(cfg, "keystone_version") == VStr("v3"))
    ensures out.Fail? && Opt(cfg, "auth_url") != VNone ==> out.error.kind == UnboundLocalError
  {
    var version := Opt(cfg, "keystone_version");
    if Opt(cfg, "auth_url") == VNone then Raise(ValueError, "Cannot authenticate without an auth_url")
    else if version == VStr("v3") || version == VStr("v2") then Pass
    else Raise(UnboundLocalError, "local variable 'sess' referenced before assignment")
  }

  function ServerId(s: Server): string { s.id }

  function VolumeId(v: CinderVolume): string { v.id }

  function NetworkId(n: NovaNetwork): string { n.id }

  /** `{'name', 'id', 'status'}` of a server. */
  function ServerRecord(s: Server): (r: Dict)
    ensures r.Keys == {"name", "id", "status"}
    ensures r["name"] == s.name && r["id"] == VStr(s.id) && r["status"] == s.status
  {
    map["name" := s.name, "id" := VStr(s.id), "status" := s.status]
  }

  /** `{'name', 'id', 'size'}` of a volume; the name is its display name. */
  function VolumeRecord(v: CinderVolume): (r: Dict)
    ensures r.Keys == {"name", "id", "size"}
    ensures r["name"] == v.displayName && r["id"] == VStr(v.id) && r["size"] == v.size
  {
    map["name" := v.displayName, "id" := VStr(v.id), "size" := v.size]
  }

  /** The nine fields of a network; both `name` and `label` are its label. */
  function NetworkRecord(n: NovaNetwork): (r: Dict)
    ensures r.Keys == {"id", "name", "bridge", "gateway", "label", "cidr", "enable_dhcp", "dhcp_server", "dns1"}
    ensures r["id"] == VStr(n.id) && r["name"] == n.netLabel && r["label"] == n.netLabel
    ensures r["bridge"] == n.bridge && r["gateway"] == n.gateway && r["cidr"] == n.cidr
    ensures r["enable_dhcp"] == n.enableDhcp && r["dhcp_server"] == n.dhcpServer && r["dns1"] == n.dns1
  {
    map["id" := VStr(n.id), "name" := n.netLabel, "bridge" := n.bridge,
        "gateway" := n.gateway, "label" := n.netLabel, "cidr" := n.cidr,
        "enable_dhcp" := n.enableDhcp, "dhcp_server" := n.dhcpServer, "dns1" := n.dns1]
  }

  /** The `--os-*` options every `glance` and `nova` command line starts with. */
  function AuthOptions(username: Value, password: Value, tenantName: Value, authUrl: Value): (words: seq<string>)
    ensures |words| == 8
    ensures words[1] == Render(username) && words[3] == Render(password)
    ensures words[5] == Render(tenantName) && words[7] == Render(authUrl)
  {
    ["--os-username", Render(username), "--os-password", Render(password),
     "--os-tenant-name", Render(tenantName), "--os-auth-url", Render(authUrl)]
  }
}
