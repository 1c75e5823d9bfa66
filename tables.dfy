/**
 * Table ids of the integration bridge pipeline, in pipeline order. The ids
 * are those the unit tests of the flow builder expect; tables 5 and 6 belong
 * to stages this version does not install.
 */
module Tables {
  import opened Constants

  const CHECK_IN_PORT := 0

  function TunnelIn(t: TunnelType): int
  {
    match t
    case Gre => 1
    case Vxlan => 2
  }

  const PHYS_IN := 3
  const LOCAL_IN := 4
  const TUNNEL_OUT := 7
  const LOCAL_OUT := 8
  const PHYS_OUT := 9

  function TunnelFlood(t: TunnelType): int
  {
    match t
    case Gre => 10
    case Vxlan => 11
  }

  const PHYS_FLOOD := 12
  const LOCAL_FLOOD := 13

  /** The tunnel types that have their own TUNNEL_IN and TUNNEL_FLOOD tables. */
  const TUNNEL_TYPES: seq<TunnelType> := [Gre, Vxlan]

  /** Every table of the pipeline. */
  function PipelineTables(): set<int>
  {
    {CHECK_IN_PORT, TunnelIn(Gre), TunnelIn(Vxlan), PHYS_IN, LOCAL_IN, TUNNEL_OUT,
     LOCAL_OUT, PHYS_OUT, TunnelFlood(Gre), TunnelFlood(Vxlan), PHYS_FLOOD, LOCAL_FLOOD}
  }
}
