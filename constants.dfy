/** Network types, VLAN tag bounds and the forwarding-database flooding sentinel. */
module Constants {

  /** The tunnel encapsulations the pipeline has a table for. */
  datatype TunnelType = Gre | Vxlan

  /**
   * A network's type as delivered by the plugin: 'gre' and 'vxlan' are
   * tunnels, 'vlan' and 'flat' live on a physical network, 'local' has no
   * uplink; any other name is kept as it came.
   */
  datatype NetworkType =
    | TunnelNet(kind: TunnelType)
    | VlanNet
    | FlatNet
    | LocalNet
    | OtherNet(name: string)

  function TunnelTypeName(t: TunnelType): string
  {
    match t
    case Gre => "gre"
    case Vxlan => "vxlan"
  }

  /** The name of a tunnel type, back to the type; None for any other name. */
  function ParseTunnelType(name: string): (r: Option<TunnelType>)
    ensures r.Some? <==> name == "gre" || name == "vxlan"
    ensures r.Some? ==> TunnelTypeName(r.value) == name
  {
    if name == "gre" then Some(Gre)
    else if name == "vxlan" then Some(Vxlan)
    else None
  }

  import opened Wrappers

  /** Bounds of the local tag pool: tags MIN_VLAN_TAG .. MAX_VLAN_TAG - 1. */
  const MIN_VLAN_TAG := 1
  const MAX_VLAN_TAG := 4094

  /** One entry of a forwarding-database update: a MAC and an IP address. */
  datatype FdbEntry = FdbEntry(mac: string, ip: string)

  /** The entry that stands for "flood traffic of this network to the agent". */
  const FLOODING_ENTRY := FdbEntry("00:00:00:00:00:00", "0.0.0.0")
}
