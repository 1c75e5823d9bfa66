/**
 * The integration bridge's flow pipeline: one builder per kind of flow entry
 * the agent installs, the bridge operations as values (BridgeCall) with
 * their effect on the switch's flow table (Apply), and the bridge itself as
 * an object whose flow table its methods update.
 */
module Flows {
  import opened Wrappers
  import opened Constants
  import opened Tables
  import opened OpenFlow

  /** The metadata mask every tenant write uses. */
  const TENANT_METADATA_MASK := 0xffffffff

  /** The ethertype a Push-VLAN action pushes by default (802.1Q). */
  const ETH_TYPE_8021Q := 0x8100

  /** The destination address and mask that select multicast and broadcast frames. */
  const MULTICAST_BIT := "01:00:00:00:00:00"

  /** Python's `|` on non-negative integers. */
  function BitOr(a: nat, b: nat): nat
    decreases a + b
  {
    if a == 0 then b
    else if b == 0 then a
    else 2 * BitOr(a / 2, b / 2) + (if a % 2 == 1 || b % 2 == 1 then 1 else 0)
  }

  function Pow2(k: nat): nat
  {
    if k == 0 then 1 else 2 * Pow2(k - 1)
  }

  /** Setting a bit above every bit of a adds that bit's value. */
  lemma {:induction false} BitOrHighBit(a: nat, k: nat)
    requires a < Pow2(k)
    ensures BitOr(a, Pow2(k)) == a + Pow2(k)
  {
    if a != 0 {
      assert k != 0;
      BitOrHighBit(a / 2, k - 1);
    }
  }

  /** The vlan_vid a VLAN segment is matched and tagged with: seg | OFPVID_PRESENT. */
  function VlanVidOf(segmentationId: nat): nat
  {
    BitOr(segmentationId, OFPVID_PRESENT)
  }

  /** For a 12-bit VLAN id the present bit is added above the id, which stays readable below it. */
  lemma VlanVidOfVlanId(segmentationId: nat)
    requires segmentationId < OFPVID_PRESENT
    ensures VlanVidOf(segmentationId) == segmentationId + OFPVID_PRESENT
    ensures VlanVidOf(segmentationId) % OFPVID_PRESENT == segmentationId
  {
    PresentBit();
    BitOrHighBit(segmentationId, 12);
    var v := segmentationId + OFPVID_PRESENT;
    assert v % OFPVID_PRESENT == segmentationId by {
      assert v == 1 * OFPVID_PRESENT + segmentationId;
    }
  }

  /** OFPVID_PRESENT is bit 12. */
  lemma PresentBit()
    ensures Pow2(12) == OFPVID_PRESENT
  {
    assert Pow2(4) == 16;
    assert Pow2(8) == 256 by { assert Pow2(8) == 16 * Pow2(4); }
    assert Pow2(12) == 16 * Pow2(8);
  }

  /** Output actions to the ports, in order. */
  function Outputs(ports: seq<int>): (r: seq<Action>)
    ensures |r| == |ports|
    ensures OutputPorts(r) == ports
    ensures forall i :: 0 <= i < |r| ==> r[i].Output?
  {
    if ports == [] then [] else [Output(ports[0])] + Outputs(ports[1..])
  }

  // ---------------------------------------------------------------- defaults

  function DefaultDrop(tableId: int): FlowEntry
  {
    FlowEntry(tableId, 0, map[], [])
  }

  function DefaultGoto(tableId: int, dest: int): FlowEntry
  {
    FlowEntry(tableId, 0, map[], [GotoTable(dest)])
  }

  function DefaultGotoNext(tableId: int): FlowEntry
  {
    DefaultGoto(tableId, tableId + 1)
  }

  /** The tables whose default entry drops: CHECK_IN_PORT, every TUNNEL_IN, LOCAL_FLOOD. */
  function DropTables(): set<int>
  {
    {CHECK_IN_PORT, TunnelIn(Gre), TunnelIn(Vxlan), LOCAL_FLOOD}
  }

  /** The tables whose default entry continues to the next table. */
  function GotoNextTables(): set<int>
  {
    {LOCAL_IN, TUNNEL_OUT, LOCAL_OUT, PHYS_OUT, TunnelFlood(Gre), TunnelFlood(Vxlan), PHYS_FLOOD}
  }

  /** The key of a table's priority-0, match-everything default entry. */
  function DefaultKey(tableId: int): FlowKey
  {
    FlowKey(tableId, 0, map[])
  }

  /** The flow table right after the pipeline is set up, in the order setup_default_table installs it. */
  function DefaultTable(): FlowTable
  {
    map[DefaultKey(CHECK_IN_PORT) := [],
        DefaultKey(TunnelIn(Gre)) := [],
        DefaultKey(TunnelIn(Vxlan)) := [],
        DefaultKey(PHYS_IN) := [GotoTable(TUNNEL_OUT)],
        DefaultKey(LOCAL_IN) := [GotoTable(LOCAL_IN + 1)],
        DefaultKey(TUNNEL_OUT) := [GotoTable(TUNNEL_OUT + 1)],
        DefaultKey(LOCAL_OUT) := [GotoTable(LOCAL_OUT + 1)],
        DefaultKey(PHYS_OUT) := [GotoTable(PHYS_OUT + 1)],
        DefaultKey(TunnelFlood(Gre)) := [GotoTable(TunnelFlood(Gre) + 1)],
        DefaultKey(TunnelFlood(Vxlan)) := [GotoTable(TunnelFlood(Vxlan) + 1)],
        DefaultKey(PHYS_FLOOD) := [GotoTable(PHYS_FLOOD + 1)],
        DefaultKey(LOCAL_FLOOD) := []]
  }

  /**
   * After setup every table of the pipeline has exactly one entry, its
   * priority-0 default: drop in CHECK_IN_PORT, the TUNNEL_IN tables and
   * LOCAL_FLOOD; PHYS_IN continues to TUNNEL_OUT; every other table
   * continues to the next one.
   */
  lemma DefaultTableContents()
    ensures forall k :: k in DefaultTable() <==> k.tableId in PipelineTables() && k == DefaultKey(k.tableId)
    ensures forall id :: id in DropTables() ==> DefaultTable()[DefaultKey(id)] == []
    ensures DefaultTable()[DefaultKey(PHYS_IN)] == [GotoTable(TUNNEL_OUT)]
    ensures forall id :: id in GotoNextTables() ==> DefaultTable()[DefaultKey(id)] == [GotoTable(id + 1)]
    ensures PipelineTables() == DropTables() + {PHYS_IN} + GotoNextTables()
    ensures WellFormedTable(DefaultTable())
  {
  }

  /** The TUNNEL_IN drop (or, with flood, the TUNNEL_FLOOD goto-next) entry of a tunnel type. */
  function TunnelDefault(t: TunnelType, flood: bool): FlowEntry
  {
    if flood then DefaultGotoNext(TunnelFlood(t)) else DefaultDrop(TunnelIn(t))
  }

  /** The table after installing the tunnel default entries of the first n tunnel types, in order. */
  function InstallTunnelDefaults(t: FlowTable, n: nat, flood: bool): FlowTable
    requires n <= |TUNNEL_TYPES|
  {
    if n == 0 then t else Install(InstallTunnelDefaults(t, n - 1, flood), TunnelDefault(TUNNEL_TYPES[n - 1], flood))
  }

  /** The table setup_default_table leaves, written as its sequence of installs into an empty table. */
  function DefaultSetup(): FlowTable
  {
    var t0 := Install(map[], DefaultDrop(CHECK_IN_PORT));
    var t1 := InstallTunnelDefaults(t0, |TUNNEL_TYPES|, false);
    var t2 := Install(Install(Install(Install(Install(t1, DefaultGoto(PHYS_IN, TUNNEL_OUT)), DefaultGotoNext(LOCAL_IN)),
                                      DefaultGotoNext(TUNNEL_OUT)), DefaultGotoNext(LOCAL_OUT)), DefaultGotoNext(PHYS_OUT));
    var t3 := InstallTunnelDefaults(t2, |TUNNEL_TYPES|, true);
    Install(Install(t3, DefaultGotoNext(PHYS_FLOOD)), DefaultDrop(LOCAL_FLOOD))
  }

  /** The installs of setup_default_table make up DefaultTable(). */
  lemma DefaultSetupIsDefaultTable()
    ensures DefaultSetup() == DefaultTable()
  {
    var t0 := Install(map[], DefaultDrop(CHECK_IN_PORT));
    assert InstallTunnelDefaults(t0, 1, false) == Install(t0, DefaultDrop(TunnelIn(Gre)));
    assert InstallTunnelDefaults(t0, 2, false)
        == Install(Install(t0, DefaultDrop(TunnelIn(Gre))), DefaultDrop(TunnelIn(Vxlan)));
    var t1 := InstallTunnelDefaults(t0, |TUNNEL_TYPES|, false);
    var t2 := Install(Install(Install(Install(Install(t1, DefaultGoto(PHYS_IN, TUNNEL_OUT)), DefaultGotoNext(LOCAL_IN)),
                                      DefaultGotoNext(TUNNEL_OUT)), DefaultGotoNext(LOCAL_OUT)), DefaultGotoNext(PHYS_OUT));
    assert InstallTunnelDefaults(t2, 1, true) == Install(t2, DefaultGotoNext(TunnelFlood(Gre)));
    assert InstallTunnelDefaults(t2, 2, true)
        == Install(Install(t2, DefaultGotoNext(TunnelFlood(Gre))), DefaultGotoNext(TunnelFlood(Vxlan)));
  }

  // ------------------------------------------------------------- the builders

  /**
   * install_tunnel_output: a priority-1 entry in the given table that matches
   * the metadata and the additional fields, sets the tunnel key, outputs to
   * every port in order, and continues to the next table iff gotoNext.
   */
  function TunnelOutputEntry(tableId: int, metadata: int, segmentationId: nat, ports: seq<int>,
                             gotoNext: bool, additionalMatches: Match): (e: FlowEntry)
    requires Metadata !in additionalMatches
    ensures e.tableId == tableId && e.priority == 1
    ensures e.flowMatch.Keys == additionalMatches.Keys + {Metadata}
    ensures e.flowMatch[Metadata] == Num(metadata)
    ensures forall f :: f in additionalMatches ==> e.flowMatch[f] == additionalMatches[f]
    ensures AppliedActions(e.instructions) == [SetField(TunnelId, Num(segmentationId))] + Outputs(ports)
    ensures OutputPorts(AppliedActions(e.instructions)) == ports
    ensures GotoTarget(e.instructions) == (if gotoNext then Some(tableId + 1) else None)
    ensures MetadataWrite(e.instructions) == None
    ensures WellFormedEntry(e)
  {
    var actions := [SetField(TunnelId, Num(segmentationId))] + Outputs(ports);
    assert OutputPorts(actions) == ports by {
      OutputPortsAppend([SetField(TunnelId, Num(segmentationId))], Outputs(ports));
    }
    if gotoNext then
      ObservePair(ApplyActions(actions), GotoTable(tableId + 1));
      FlowEntry(tableId, 1, additionalMatches[Metadata := Num(metadata)], [ApplyActions(actions), GotoTable(tableId + 1)])
    else
      ObserveSingle(ApplyActions(actions));
      FlowEntry(tableId, 1, additionalMatches[Metadata := Num(metadata)], [ApplyActions(actions)])
  }

  /** What delete_tunnel_output removes: the metadata together with the additional fields. */
  function TunnelOutputMatch(metadata: int, additionalMatches: Match): Match
  {
    additionalMatches[Metadata := Num(metadata)]
  }

  /**
   * provision_tenant_tunnel: in the tunnel type's TUNNEL_IN table, traffic
   * with the network's tunnel key gets the tenant's metadata and continues
   * to PHYS_OUT; it never goes back to TUNNEL_OUT or a TUNNEL_FLOOD table,
   * which could loop between meshed tunnels.
   */
  function TenantTunnelEntry(tunnelType: TunnelType, tenant: int, segmentationId: nat): (e: FlowEntry)
    ensures e.tableId == TunnelIn(tunnelType) && e.priority == 1
    ensures e.flowMatch == TenantTunnelMatch(segmentationId)
    ensures MetadataWrite(e.instructions) == Some((tenant, TENANT_METADATA_MASK))
    ensures GotoTarget(e.instructions) == Some(PHYS_OUT)
    ensures GotoTarget(e.instructions) != Some(TUNNEL_OUT)
    ensures forall tt :: GotoTarget(e.instructions) != Some(TunnelFlood(tt))
    ensures AppliedActions(e.instructions) == []
    ensures WellFormedEntry(e)
  {
    ObservePair(WriteMetadata(tenant, TENANT_METADATA_MASK), GotoTable(PHYS_OUT));
    FlowEntry(TunnelIn(tunnelType), 1, TenantTunnelMatch(segmentationId),
              [WriteMetadata(tenant, TENANT_METADATA_MASK), GotoTable(PHYS_OUT)])
  }

  function TenantTunnelMatch(segmentationId: nat): Match
  {
    map[TunnelId := Num(segmentationId)]
  }

  /** The network types provision_tenant_physnet accepts. */
  predicate IsPhysnetType(networkType: NetworkType)
  {
    networkType == VlanNet || networkType == FlatNet
  }

  /** The CHECK_IN_PORT match of a physical network: the port, and for VLAN also the tag. */
  function PhysnetInMatch(networkType: NetworkType, segmentationId: nat, physPort: int): Match
  {
    if networkType == VlanNet then map[InPort := Num(physPort), VlanVid := Num(VlanVidOf(segmentationId))]
    else map[InPort := Num(physPort)]
  }

  /**
   * The CHECK_IN_PORT entry of provision_tenant_physnet: traffic from the
   * physical port (with the segment's tag, for VLAN) gets the tenant's
   * metadata, loses its tag (VLAN), and continues to PHYS_IN.
   */
  function PhysnetInEntry(networkType: NetworkType, tenant: int, segmentationId: nat, physPort: int): (e: FlowEntry)
    requires IsPhysnetType(networkType)
    ensures e.tableId == CHECK_IN_PORT && e.priority == 1
    ensures e.flowMatch == PhysnetInMatch(networkType, segmentationId, physPort)
    ensures e.flowMatch[InPort] == Num(physPort)
    ensures VlanVid in e.flowMatch <==> networkType == VlanNet
    ensures AppliedActions(e.instructions) == (if networkType == VlanNet then [PopVlan] else [])
    ensures MetadataWrite(e.instructions) == Some((tenant, TENANT_METADATA_MASK))
    ensures GotoTarget(e.instructions) == Some(PHYS_IN)
    ensures WellFormedEntry(e)
  {
    var write := WriteMetadata(tenant, TENANT_METADATA_MASK);
    var m := PhysnetInMatch(networkType, segmentationId, physPort);
    if networkType == VlanNet then
      ObserveTriple(write, ApplyActions([PopVlan]), GotoTable(PHYS_IN));
      FlowEntry(CHECK_IN_PORT, 1, m, [write, ApplyActions([PopVlan]), GotoTable(PHYS_IN)])
    else
      ObservePair(write, GotoTable(PHYS_IN));
      FlowEntry(CHECK_IN_PORT, 1, m, [write, GotoTable(PHYS_IN)])
  }

  /** The actions of the PHYS_FLOOD entry of a physical network. */
  function PhysnetFloodActions(networkType: NetworkType, segmentationId: nat, physPort: int): seq<Action>
  {
    if networkType == VlanNet then
      [PushVlan(ETH_TYPE_8021Q), SetField(VlanVid, Num(VlanVidOf(segmentationId))), Output(physPort), PopVlan]
    else [Output(physPort)]
  }

  /** Whether tagged or not, the flood actions output to the physical port alone. */
  lemma PhysnetFloodOutputs(networkType: NetworkType, segmentationId: nat, physPort: int)
    ensures OutputPorts(PhysnetFloodActions(networkType, segmentationId, physPort)) == [physPort]
  {
    var push := [PushVlan(ETH_TYPE_8021Q), SetField(VlanVid, Num(VlanVidOf(segmentationId)))];
    if networkType == VlanNet {
      assert PhysnetFloodActions(networkType, segmentationId, physPort) == push + [Output(physPort), PopVlan];
      OutputPortsAppend(push, [Output(physPort), PopVlan]);
      assert push[1..] == [SetField(VlanVid, Num(VlanVidOf(segmentationId)))];
      assert push[1..][1..] == [];
      assert OutputPorts(push) == [];
      assert [Output(physPort), PopVlan][1..] == [PopVlan];
      assert [PopVlan][1..] == [];
      assert OutputPorts([PopVlan]) == [];
      assert OutputPorts([Output(physPort), PopVlan]) == [physPort];
    }
  }

  /**
   * The PHYS_FLOOD entry of provision_tenant_physnet: the tenant's traffic is
   * sent out of the physical port (tagged with the segment for VLAN, the tag
   * removed again afterwards) and continues to the next table.
   */
  function PhysnetFloodEntry(networkType: NetworkType, tenant: int, segmentationId: nat, physPort: int): (e: FlowEntry)
    requires IsPhysnetType(networkType)
    ensures e.tableId == PHYS_FLOOD && e.priority == 1
    ensures e.flowMatch == map[Metadata := Num(tenant)]
    ensures AppliedActions(e.instructions) == PhysnetFloodActions(networkType, segmentationId, physPort)
    ensures OutputPorts(AppliedActions(e.instructions)) == [physPort]
    ensures GotoTarget(e.instructions) == Some(PHYS_FLOOD + 1)
    ensures MetadataWrite(e.instructions) == None
    ensures WellFormedEntry(e)
  {
    ObservePair(ApplyActions(PhysnetFloodActions(networkType, segmentationId, physPort)), GotoTable(PHYS_FLOOD + 1));
    PhysnetFloodOutputs(networkType, segmentationId, physPort);
    FlowEntry(PHYS_FLOOD, 1, map[Metadata := Num(tenant)],
              [ApplyActions(PhysnetFloodActions(networkType, segmentationId, physPort)), GotoTable(PHYS_FLOOD + 1)])
  }

  /** check_in_port_add_tunnel_port: traffic from a tunnel port goes to its type's TUNNEL_IN table. */
  function CheckInPortTunnelEntry(tunnelType: TunnelType, port: int): (e: FlowEntry)
    ensures e.tableId == CHECK_IN_PORT && e.priority == 1
    ensures e.flowMatch == map[InPort := Num(port)]
    ensures GotoTarget(e.instructions) == Some(TunnelIn(tunnelType))
    ensures MetadataWrite(e.instructions) == None
    ensures AppliedActions(e.instructions) == []
    ensures WellFormedEntry(e)
  {
    ObserveSingle(GotoTable(TunnelIn(tunnelType)));
    FlowEntry(CHECK_IN_PORT, 1, map[InPort := Num(port)], [GotoTable(TunnelIn(tunnelType))])
  }

  /** check_in_port_add_local_port: traffic from a VM port gets its network's metadata and goes to LOCAL_IN. */
  function CheckInPortLocalEntry(tenant: int, port: int): (e: FlowEntry)
    ensures e.tableId == CHECK_IN_PORT && e.priority == 1
    ensures e.flowMatch == map[InPort := Num(port)]
    ensures MetadataWrite(e.instructions) == Some((tenant, TENANT_METADATA_MASK))
    ensures GotoTarget(e.instructions) == Some(LOCAL_IN)
    ensures AppliedActions(e.instructions) == []
    ensures WellFormedEntry(e)
  {
    ObservePair(WriteMetadata(tenant, TENANT_METADATA_MASK), GotoTable(LOCAL_IN));
    FlowEntry(CHECK_IN_PORT, 1, map[InPort := Num(port)],
              [WriteMetadata(tenant, TENANT_METADATA_MASK), GotoTable(LOCAL_IN)])
  }

  /** LOCAL_FLOOD match for flooding every frame of the network. */
  function MatchAll(tenant: int): Match
  {
    map[Metadata := Num(tenant)]
  }

  /** LOCAL_FLOOD match for flooding only multicast and broadcast frames of the network. */
  function MatchMulticast(tenant: int): Match
  {
    map[Metadata := Num(tenant), EthDst := MaskedMac(MULTICAST_BIT, MULTICAST_BIT)]
  }

  /** The LOCAL_FLOOD entry that outputs the network's (unicast too, iff floodUnicast) frames to the ports. */
  function LocalFloodEntry(tenant: int, ports: seq<int>, floodUnicast: bool): (e: FlowEntry)
    ensures e.tableId == LOCAL_FLOOD && e.priority == 1
    ensures e.flowMatch == (if floodUnicast then MatchAll(tenant) else MatchMulticast(tenant))
    ensures OutputPorts(AppliedActions(e.instructions)) == ports
    ensures GotoTarget(e.instructions) == None
    ensures WellFormedEntry(e)
  {
    ObserveSingle(ApplyActions(Outputs(ports)));
    FlowEntry(LOCAL_FLOOD, 1, if floodUnicast then MatchAll(tenant) else MatchMulticast(tenant),
              [ApplyActions(Outputs(ports))])
  }

  function LocalOutMatch(tenant: int, mac: string): Match
  {
    map[Metadata := Num(tenant), EthDst := Mac(mac)]
  }

  /** local_out_add_port: the network's frames for this MAC go out of the port. */
  function LocalOutEntry(tenant: int, port: int, mac: string): (e: FlowEntry)
    ensures e.tableId == LOCAL_OUT && e.priority == 1
    ensures e.flowMatch == LocalOutMatch(tenant, mac)
    ensures OutputPorts(AppliedActions(e.instructions)) == [port]
    ensures GotoTarget(e.instructions) == None
    ensures WellFormedEntry(e)
  {
    ObserveSingle(ApplyActions([Output(port)]));
    assert [Output(port)][1..] == [];
    FlowEntry(LOCAL_OUT, 1, LocalOutMatch(tenant, mac), [ApplyActions([Output(port)])])
  }

  // ------------------------------------------------- the bridge operations

  /** One operation of the integration bridge, with its arguments. */
  datatype BridgeCall =
    | SetupDefaultTable
    | InstallTunnelOutput(tableId: int, metadata: int, segmentationId: nat, ports: seq<int>,
                          gotoNext: bool, additionalMatches: Match)
    | DeleteTunnelOutput(tableId: int, metadata: int, additionalMatches: Match)
    | ProvisionTenantTunnel(tunnelType: TunnelType, tenant: int, segmentationId: nat)
    | ReclaimTenantTunnel(tunnelType: TunnelType, tenant: int, segmentationId: nat)
    | ProvisionTenantPhysnet(networkType: NetworkType, tenant: int, segmentationId: nat, physPort: int)
    | ReclaimTenantPhysnet(networkType: NetworkType, tenant: int, segmentationId: nat, physPort: int)
    | CheckInPortAddTunnelPort(tunnelType: TunnelType, port: int)
    | CheckInPortAddLocalPort(tenant: int, port: int)
    | CheckInPortDeletePort(port: int)
    | LocalFloodUpdate(tenant: int, ports: seq<int>, floodUnicast: bool)
    | LocalFloodDelete(tenant: int)
    | LocalOutAddPort(tenant: int, port: int, mac: string)
    | LocalOutDeletePort(tenant: int, mac: string)

  /**
   * The calls the bridge accepts: provision_tenant_physnet asserts a VLAN or
   * flat network, and the additional matches of the tunnel-output calls
   * cannot repeat the metadata keyword.
   */
  predicate Admissible(c: BridgeCall)
  {
    match c
    case ProvisionTenantPhysnet(nt, _, _, _) => IsPhysnetType(nt)
    case InstallTunnelOutput(_, _, _, _, _, extra) => Metadata !in extra
    case DeleteTunnelOutput(_, _, extra) => Metadata !in extra
    case _ => true
  }

  /** The flow table after the bridge performs the call. */
  function Apply(t: FlowTable, c: BridgeCall): FlowTable
    requires Admissible(c)
  {
    match c
    case SetupDefaultTable => DefaultTable()
    case InstallTunnelOutput(tableId, metadata, seg, ports, gotoNext, extra) =>
      Install(t, TunnelOutputEntry(tableId, metadata, seg, ports, gotoNext, extra))
    case DeleteTunnelOutput(tableId, metadata, extra) =>
      Delete(t, OneTable(tableId), TunnelOutputMatch(metadata, extra))
    case ProvisionTenantTunnel(tt, tenant, seg) =>
      Install(t, TenantTunnelEntry(tt, tenant, seg))
    case ReclaimTenantTunnel(tt, _, seg) =>
      Delete(t, OneTable(TunnelIn(tt)), TenantTunnelMatch(seg))
    case ProvisionTenantPhysnet(nt, tenant, seg, port) =>
      Install(Install(t, PhysnetInEntry(nt, tenant, seg, port)), PhysnetFloodEntry(nt, tenant, seg, port))
    case ReclaimTenantPhysnet(nt, tenant, seg, port) =>
      Delete(ReclaimPhysnetIngress(t, nt, seg, port), OneTable(PHYS_FLOOD), MatchAll(tenant))
    case CheckInPortAddTunnelPort(tt, port) =>
      Install(t, CheckInPortTunnelEntry(tt, port))
    case CheckInPortAddLocalPort(tenant, port) =>
      Install(t, CheckInPortLocalEntry(tenant, port))
    case CheckInPortDeletePort(port) =>
      Delete(t, OneTable(CHECK_IN_PORT), map[InPort := Num(port)])
    case LocalFloodUpdate(tenant, ports, floodUnicast) =>
      DeleteStrict(Install(t, LocalFloodEntry(tenant, ports, floodUnicast)), LOCAL_FLOOD, 1,
                   if floodUnicast then MatchMulticast(tenant) else MatchAll(tenant))
    case LocalFloodDelete(tenant) =>
      Delete(t, OneTable(LOCAL_FLOOD), MatchAll(tenant))
    case LocalOutAddPort(tenant, port, mac) =>
      Install(t, LocalOutEntry(tenant, port, mac))
    case LocalOutDeletePort(tenant, mac) =>
      Delete(t, OneTable(LOCAL_OUT), LocalOutMatch(tenant, mac))
  }

  /**
   * The CHECK_IN_PORT half of reclaim_tenant_physnet: a VLAN network's
   * entries for its port and tag go; a flat network's single entry goes by a
   * strict delete, so the port's VLAN networks keep theirs.
   */
  function ReclaimPhysnetIngress(t: FlowTable, networkType: NetworkType, segmentationId: nat, physPort: int): FlowTable
  {
    if networkType == VlanNet then
      Delete(t, OneTable(CHECK_IN_PORT), PhysnetInMatch(networkType, segmentationId, physPort))
    else
      DeleteStrict(t, CHECK_IN_PORT, 1, PhysnetInMatch(networkType, segmentationId, physPort))
  }

  /** Every bridge operation keeps every goto pointing to a later table. */
  lemma ApplyWellFormed(t: FlowTable, c: BridgeCall)
    requires Admissible(c) && WellFormedTable(t)
    ensures WellFormedTable(Apply(t, c))
  {
    match c
    case SetupDefaultTable =>
      DefaultTableContents();
    case InstallTunnelOutput(tableId, metadata, seg, ports, gotoNext, extra) =>
      InstallWellFormed(t, TunnelOutputEntry(tableId, metadata, seg, ports, gotoNext, extra));
    case DeleteTunnelOutput(tableId, metadata, extra) =>
      DeleteWellFormed(t, OneTable(tableId), TunnelOutputMatch(metadata, extra));
    case ProvisionTenantTunnel(tt, tenant, seg) =>
      InstallWellFormed(t, TenantTunnelEntry(tt, tenant, seg));
    case ReclaimTenantTunnel(tt, _, seg) =>
      DeleteWellFormed(t, OneTable(TunnelIn(tt)), TenantTunnelMatch(seg));
    case ProvisionTenantPhysnet(nt, tenant, seg, port) =>
      InstallWellFormed(t, PhysnetInEntry(nt, tenant, seg, port));
      InstallWellFormed(Install(t, PhysnetInEntry(nt, tenant, seg, port)), PhysnetFloodEntry(nt, tenant, seg, port));
    case ReclaimTenantPhysnet(nt, tenant, seg, port) =>
      var m := PhysnetInMatch(nt, seg, port);
      if nt == VlanNet {
        DeleteWellFormed(t, OneTable(CHECK_IN_PORT), m);
      } else {
        DeleteStrictWellFormed(t, CHECK_IN_PORT, 1, m);
      }
      DeleteWellFormed(ReclaimPhysnetIngress(t, nt, seg, port), OneTable(PHYS_FLOOD), MatchAll(tenant));
    case CheckInPortAddTunnelPort(tt, port) =>
      InstallWellFormed(t, CheckInPortTunnelEntry(tt, port));
    case CheckInPortAddLocalPort(tenant, port) =>
      InstallWellFormed(t, CheckInPortLocalEntry(tenant, port));
    case CheckInPortDeletePort(port) =>
      DeleteWellFormed(t, OneTable(CHECK_IN_PORT), map[InPort := Num(port)]);
    case LocalFloodUpdate(tenant, ports, floodUnicast) =>
      var e := LocalFloodEntry(tenant, ports, floodUnicast);
      InstallWellFormed(t, e);
      DeleteStrictWellFormed(Install(t, e), LOCAL_FLOOD, 1, if floodUnicast then MatchMulticast(tenant) else MatchAll(tenant));
    case LocalFloodDelete(tenant) =>
      DeleteWellFormed(t, OneTable(LOCAL_FLOOD), MatchAll(tenant));
    case LocalOutAddPort(tenant, port, mac) =>
      InstallWellFormed(t, LocalOutEntry(tenant, port, mac));
    case LocalOutDeletePort(tenant, mac) =>
      DeleteWellFormed(t, OneTable(LOCAL_OUT), LocalOutMatch(tenant, mac));
  }

  /** The flow table after the calls, performed in order. */
  function ApplyAll(t: FlowTable, calls: seq<BridgeCall>): FlowTable
    requires forall i :: 0 <= i < |calls| ==> Admissible(calls[i])
  {
    if calls == [] then t
    else Apply(ApplyAll(t, calls[..|calls| - 1]), calls[|calls| - 1])
  }

  /** Performing the calls one after another keeps every goto pointing forward. */
  lemma {:induction false} ApplyAllWellFormed(t: FlowTable, calls: seq<BridgeCall>)
    requires forall i :: 0 <= i < |calls| ==> Admissible(calls[i])
    requires WellFormedTable(t)
    ensures WellFormedTable(ApplyAll(t, calls))
  {
    if calls != [] {
      ApplyAllWellFormed(t, calls[..|calls| - 1]);
      ApplyWellFormed(ApplyAll(t, calls[..|calls| - 1]), calls[|calls| - 1]);
    }
  }

  /** One more call at the end of the list is one more Apply. */
  lemma ApplyAllSnoc(t: FlowTable, calls: seq<BridgeCall>, c: BridgeCall)
    requires forall i :: 0 <= i < |calls| ==> Admissible(calls[i])
    requires Admissible(c)
    ensures forall i :: 0 <= i < |calls + [c]| ==> Admissible((calls + [c])[i])
    ensures ApplyAll(t, calls + [c]) == Apply(ApplyAll(t, calls), c)
  {
    assert (calls + [c])[..|calls|] == calls;
  }

  // ------------------------------------------------------------ the bridge

  /** The integration bridge: the switch's flow table, changed by the bridge's operations. */
  class IntegrationBridge {
    var flows: FlowTable

    /** Every goto of every entry points to a later table. */
    ghost predicate Valid()
      reads this
    {
      WellFormedTable(flows)
    }

    constructor()
      ensures flows == map[]
      ensures Valid()
    {
      flows := map[];
    }

    /** A bridge on which setup_default_table has just run: it holds exactly the default pipeline. */
    constructor WithDefaults()
      ensures flows == DefaultTable()
      ensures Valid()
    {
      flows := map[];
      new;
      SetupDefaultTable();
    }

    /** Sends an OFPFC_ADD flow-mod. */
    method SendFlowMod(e: FlowEntry)
      requires Valid() && WellFormedEntry(e)
      modifies this
      ensures flows == Install(old(flows), e)
      ensures Valid()
    {
      InstallWellFormed(flows, e);
      flows := Install(flows, e);
    }

    /** Sends an OFPFC_DELETE flow-mod. */
    method DeleteFlows(sel: TableSelector, m: Match)
      requires Valid()
      modifies this
      ensures flows == Delete(old(flows), sel, m)
      ensures Valid()
    {
      DeleteWellFormed(flows, sel, m);
      flows := Delete(flows, sel, m);
    }

    /** Sends an OFPFC_DELETE_STRICT flow-mod. */
    method DeleteFlowsStrict(tableId: int, priority: int, m: Match)
      requires Valid()
      modifies this
      ensures flows == DeleteStrict(old(flows), tableId, priority, m)
      ensures Valid()
    {
      DeleteStrictWellFormed(flows, tableId, priority, m);
      flows := DeleteStrict(flows, tableId, priority, m);
    }

    /** install_default_drop: the table's priority-0 entry drops everything. */
    method InstallDefaultDrop(tableId: int)
      requires Valid()
      modifies this
      ensures flows == Install(old(flows), DefaultDrop(tableId))
      ensures Valid()
    {
      SendFlowMod(DefaultDrop(tableId));
    }

    /** install_default_goto: the table's priority-0 entry continues to dest. */
    method InstallDefaultGoto(tableId: int, dest: int)
      requires Valid() && dest > tableId
      modifies this
      ensures flows == Install(old(flows), DefaultGoto(tableId, dest))
      ensures Valid()
    {
      SendFlowMod(DefaultGoto(tableId, dest));
    }

    /** install_default_goto_next: the table's priority-0 entry continues to the next table. */
    method InstallDefaultGotoNext(tableId: int)
      requires Valid()
      modifies this
      ensures flows == Install(old(flows), DefaultGotoNext(tableId))
      ensures Valid()
    {
      SendFlowMod(DefaultGotoNext(tableId));
    }

    /** setup_default_table's loops over the tunnel types: each type's TUNNEL_IN drop (or TUNNEL_FLOOD goto-next) entry, in order. */
    method InstallTunnelDefaultEntries(flood: bool)
      requires Valid()
      modifies this
      ensures flows == InstallTunnelDefaults(old(flows), |TUNNEL_TYPES|, flood)
      ensures Valid()
    {
      for i := 0 to |TUNNEL_TYPES|
        invariant Valid() && flows == InstallTunnelDefaults(old(flows), i, flood)
      {
        if flood {
          InstallDefaultGotoNext(TunnelFlood(TUNNEL_TYPES[i]));
        } else {
          InstallDefaultDrop(TunnelIn(TUNNEL_TYPES[i]));
        }
      }
    }

    /** setup_default_table: whatever was installed before, afterwards the table holds exactly the defaults. */
    method SetupDefaultTable()
      requires Valid()
      modifies this
      ensures flows == DefaultTable()
      ensures flows == Apply(old(flows), BridgeCall.SetupDefaultTable)
      ensures Valid()
    {
      DeleteFlows(AllTables, map[]);
      DeleteEverything(old(flows));
      InstallDefaultDrop(CHECK_IN_PORT);
      InstallTunnelDefaultEntries(false);
      InstallDefaultGoto(PHYS_IN, TUNNEL_OUT);
      InstallDefaultGotoNext(LOCAL_IN);

      InstallDefaultGotoNext(TUNNEL_OUT);
      InstallDefaultGotoNext(LOCAL_OUT);
      InstallDefaultGotoNext(PHYS_OUT);
      InstallTunnelDefaultEntries(true);
      InstallDefaultGotoNext(PHYS_FLOOD);
      InstallDefaultDrop(LOCAL_FLOOD);
      DefaultSetupIsDefaultTable();
    }

    method InstallTunnelOutput(tableId: int, metadata: int, segmentationId: nat, ports: seq<int>,
                               gotoNext: bool, additionalMatches: Match)
      requires Valid() && Metadata !in additionalMatches
      modifies this
      ensures flows == Apply(old(flows), BridgeCall.InstallTunnelOutput(tableId, metadata, segmentationId, ports, gotoNext, additionalMatches))
      ensures Valid()
    {
      SendFlowMod(TunnelOutputEntry(tableId, metadata, segmentationId, ports, gotoNext, additionalMatches));
    }

    method DeleteTunnelOutput(tableId: int, metadata: int, additionalMatches: Match)
      requires Valid() && Metadata !in additionalMatches
      modifies this
      ensures flows == Apply(old(flows), BridgeCall.DeleteTunnelOutput(tableId, metadata, additionalMatches))
      ensures Valid()
    {
      DeleteFlows(OneTable(tableId), TunnelOutputMatch(metadata, additionalMatches));
    }

    method ProvisionTenantTunnel(tunnelType: TunnelType, tenant: int, segmentationId: nat)
      requires Valid()
      modifies this
      ensures flows == Apply(old(flows), BridgeCall.ProvisionTenantTunnel(tunnelType, tenant, segmentationId))
      ensures Valid()
    {
      SendFlowMod(TenantTunnelEntry(tunnelType, tenant, segmentationId));
    }

    method ReclaimTenantTunnel(tunnelType: TunnelType, tenant: int, segmentationId: nat)
      requires Valid()
      modifies this
      ensures flows == Apply(old(flows), BridgeCall.ReclaimTenantTunnel(tunnelType, tenant, segmentationId))
      ensures Valid()
    {
      DeleteFlows(OneTable(TunnelIn(tunnelType)), TenantTunnelMatch(segmentationId));
    }

    method ProvisionTenantPhysnet(networkType: NetworkType, tenant: int, segmentationId: nat, physPort: int)
      requires Valid() && IsPhysnetType(networkType)
      modifies this
      ensures flows == Apply(old(flows), BridgeCall.ProvisionTenantPhysnet(networkType, tenant, segmentationId, physPort))
      ensures Valid()
    {
      SendFlowMod(PhysnetInEntry(networkType, tenant, segmentationId, physPort));
      SendFlowMod(PhysnetFloodEntry(networkType, tenant, segmentationId, physPort));
    }

    /**
     * The network's ingress entry and its PHYS_FLOOD entry go. For a flat
     * network this is the evidently intended deletion: the code as written
     * raises before deleting anything (Findings.ReclaimTenantPhysnetAsWritten).
     */
    method ReclaimTenantPhysnet(networkType: NetworkType, tenant: int, segmentationId: nat, physPort: int)
      requires Valid()
      modifies this
      ensures flows == Apply(old(flows), BridgeCall.ReclaimTenantPhysnet(networkType, tenant, segmentationId, physPort))
      ensures Valid()
    {
      if networkType == VlanNet {
        DeleteFlows(OneTable(CHECK_IN_PORT), PhysnetInMatch(networkType, segmentationId, physPort));
      } else {
        DeleteFlowsStrict(CHECK_IN_PORT, 1, PhysnetInMatch(networkType, segmentationId, physPort));
      }
      DeleteFlows(OneTable(PHYS_FLOOD), MatchAll(tenant));
    }

    method CheckInPortAddTunnelPort(tunnelType: TunnelType, port: int)
      requires Valid()
      modifies this
      ensures flows == Apply(old(flows), BridgeCall.CheckInPortAddTunnelPort(tunnelType, port))
      ensures Valid()
    {
      SendFlowMod(CheckInPortTunnelEntry(tunnelType, port));
    }

    method CheckInPortAddLocalPort(tenant: int, port: int)
      requires Valid()
      modifies this
      ensures flows == Apply(old(flows), BridgeCall.CheckInPortAddLocalPort(tenant, port))
      ensures Valid()
    {
      SendFlowMod(CheckInPortLocalEntry(tenant, port));
    }

    method CheckInPortDeletePort(port: int)
      requires Valid()
      modifies this
      ensures flows == Apply(old(flows), BridgeCall.CheckInPortDeletePort(port))
      ensures Valid()
    {
      DeleteFlows(OneTable(CHECK_IN_PORT), map[InPort := Num(port)]);
    }

    method LocalFloodUpdate(tenant: int, ports: seq<int>, floodUnicast: bool)
      requires Valid()
      modifies this
      ensures flows == Apply(old(flows), BridgeCall.LocalFloodUpdate(tenant, ports, floodUnicast))
      ensures Valid()
    {
      var matchAdd, matchDel;
      if floodUnicast {
        matchAdd, matchDel := MatchAll(tenant), MatchMulticast(tenant);
      } else {
        matchAdd, matchDel := MatchMulticast(tenant), MatchAll(tenant);
      }
      SendFlowMod(FlowEntry(LOCAL_FLOOD, 1, matchAdd, [ApplyActions(Outputs(ports))]));
      DeleteFlowsStrict(LOCAL_FLOOD, 1, matchDel);
    }

    method LocalFloodDelete(tenant: int)
      requires Valid()
      modifies this
      ensures flows == Apply(old(flows), BridgeCall.LocalFloodDelete(tenant))
      ensures Valid()
    {
      DeleteFlows(OneTable(LOCAL_FLOOD), MatchAll(tenant));
    }

    method LocalOutAddPort(tenant: int, port: int, mac: string)
      requires Valid()
      modifies this
      ensures flows == Apply(old(flows), BridgeCall.LocalOutAddPort(tenant, port, mac))
      ensures Valid()
    {
      SendFlowMod(LocalOutEntry(tenant, port, mac));
    }

    method LocalOutDeletePort(tenant: int, mac: string)
      requires Valid()
      modifies this
      ensures flows == Apply(old(flows), BridgeCall.LocalOutDeletePort(tenant, mac))
      ensures Valid()
    {
      DeleteFlows(OneTable(LOCAL_OUT), LocalOutMatch(tenant, mac));
    }
  }
}
