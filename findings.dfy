/**
 * Places where the agent's code, read as written, does something other than
 * what it evidently means to do. Each is modelled here as written, with a
 * lemma that exhibits the discrepancy; the rest of the model uses the
 * corrected behaviour, whose property is proved where that behaviour is
 * defined (named in each comment below).
 */
module Findings {
  import opened Wrappers
  import opened Constants
  import opened Tables
  import opened OpenFlow
  import opened Flows
  import opened FlowProperties
  import opened AgentState
  import opened AgentFlows

  // ------------------------------------------------ setup_tunnel_port's check-in entry

  /**
   * What setup_tunnel_port leaves behind: the port it yields, the
   * registries, the bridge's flows, and whether it raised.
   */
  datatype SetupEffect = SetupEffect(ofport: int, registries: map<TunnelType, map<string, int>>, flows: FlowTable, raised: bool)

  /**
   * setup_tunnel_port as written: a valid port is registered, then the
   * agent calls the bridge's check_in_port_add_tunnel_port, but the bridge
   * defines that method as check_in_port_add_tuunel_port, so the call raises
   * AttributeError and no CHECK_IN_PORT entry is sent.
   */
  function SetupTunnelPortAsWritten(r: map<TunnelType, map<string, int>>, t: FlowTable, kind: TunnelType,
                                    remoteIp: string, addedOfport: Option<int>): (e: SetupEffect)
    requires kind in r
    ensures e.flows == t
  {
    var ofport := if addedOfport.Some? then addedOfport.value else -1;
    if ofport < 0 then SetupEffect(0, r, t, false)
    else SetupEffect(ofport, r[kind := r[kind][remoteIp := ofport]], t, true)
  }

  /**
   * As written, a tunnel port the switch created is registered for the host
   * while the bridge has no CHECK_IN_PORT entry for it: whatever arrives
   * through the tunnel hits CHECK_IN_PORT's default drop. (Corrected:
   * OfaAgent.SetupTunnelPort, whose entry sends the port's traffic to the
   * tunnel type's TUNNEL_IN table.)
   */
  lemma SetupTunnelPortAsWrittenLeavesPortUnchecked(r: map<TunnelType, map<string, int>>, t: FlowTable, kind: TunnelType,
                                                    remoteIp: string, ofport: int)
    requires kind in r && ofport >= 0
    requires forall k :: k in t ==> !InPortEntry(k, ofport)
    ensures var e := SetupTunnelPortAsWritten(r, t, kind, remoteIp, Some(ofport));
      && e.raised
      && kind in e.registries && remoteIp in e.registries[kind] && e.registries[kind][remoteIp] == ofport
      && CheckInPortTunnelEntry(kind, ofport).Key() !in e.flows
  {
    var k := CheckInPortTunnelEntry(kind, ofport).Key();
    assert InPortEntry(k, ofport);
  }

  // ------------------------------------------------ reclaim_local_vlan's tag

  /** What reclaim_local_vlan leaves of the tag accounting, and whether it raised. */
  datatype ReclaimEffect = ReclaimEffect(pool: set<int>, networks: map<NetId, LocalVlanMapping>, raised: bool)

  /**
   * The networks whose reclaim raises as written: for a tunnel network with
   * tunnelling enabled the method reads lvm.lvid, an attribute a
   * LocalVLANMapping does not have; for a VLAN or flat network it reads
   * physical_network, a name the method never binds.
   */
  predicate ReclaimRaises(networkType: NetworkType, enableTunneling: bool)
  {
    (networkType.TunnelNet? && enableTunneling) || networkType == VlanNet || networkType == FlatNet
  }

  /**
   * reclaim_local_vlan as written, as far as the tags go: the record is
   * popped first, and the tag goes back to the pool only when nothing
   * raised before the method's last line.
   */
  function ReclaimAsWritten(pool: set<int>, m: map<NetId, LocalVlanMapping>, net: NetId, enableTunneling: bool): (r: ReclaimEffect)
    ensures r.networks == m - {net}
  {
    if net !in m then ReclaimEffect(pool, m, false)
    else if ReclaimRaises(m[net].networkType, enableTunneling) then ReclaimEffect(pool, m - {net}, true)
    else ReclaimEffect(pool + {m[net].vlan}, m - {net}, false)
  }

  /**
   * As written, reclaiming a tunnel (with tunnelling on), VLAN or flat
   * network loses its tag: it is neither in the pool nor held by a network,
   * so the tag accounting breaks and the agent has one tag fewer for good.
   * (Corrected: OfaAgent.ReclaimLocalVlan and AgentState.ReclaimConserves,
   * which give the tag back.)
   */
  lemma ReclaimAsWrittenLeaksTag(pool: set<int>, m: map<NetId, LocalVlanMapping>, net: NetId, enableTunneling: bool)
    requires TagsConserved(pool, m) && net in m
    requires ReclaimRaises(m[net].networkType, enableTunneling)
    ensures var r := ReclaimAsWritten(pool, m, net, enableTunneling);
      && r.raised
      && m[net].vlan !in r.pool && m[net].vlan !in MappedTags(r.networks)
      && !TagsConserved(r.pool, r.networks)
      && |r.pool| + |r.networks| == |pool| + |m| - 1
  {
    var tag := m[net].vlan;
    var r := ReclaimAsWritten(pool, m, net, enableTunneling);
    assert tag in MappedTags(m);
    ReclaimConserves(pool, m, net);
    assert tag !in r.pool;
    assert MIN_VLAN_TAG <= tag < MAX_VLAN_TAG;
    assert tag !in r.pool + MappedTags(r.networks);
  }

  // ------------------------------------------------ _del_fdb_flow's flood table

  /** What removing a host's flooding entry leaves: the network's flood set, the flows, and whether it raised. */
  datatype FloodRemoval = FloodRemoval(flood: set<int>, flows: FlowTable, raised: bool)

  /**
   * _del_fdb_flow for the flooding entry as written: the port leaves the
   * network's flood set, then the table is looked up as
   * tables.TUNNEL_OUT_FLOOD, which the pipeline does not have (its flood
   * tables are TUNNEL_FLOOD, the one _add_fdb_flow writes), so it raises
   * before any flow is changed and before the port is cleaned up.
   */
  function DelFloodAsWritten(flood: set<int>, t: FlowTable, ofport: int): (r: FloodRemoval)
    ensures r.flows == t
  {
    FloodRemoval(flood - {ofport}, t, true)
  }

  /**
   * As written, after a host withdraws its flooding entry the network's
   * TUNNEL_FLOOD entry still outputs to the host's tunnel port, which the
   * agent no longer counts in the flood set. (Corrected: AgentFlows.DelFdbStep,
   * after which the entry outputs to exactly the remaining flood set, or is
   * gone.)
   */
  lemma DelFloodAsWrittenStillFloods(flood: set<int>, t: FlowTable, kind: TunnelType, vlan: int, ofport: int)
    requires FloodInstalled(t, kind, vlan, [FLOODING_ENTRY], flood) && ofport in flood
    ensures var r := DelFloodAsWritten(flood, t, ofport);
      && r.raised && ofport !in r.flood
      && TunnelFloodKey(kind, vlan) in r.flows
      && ofport in Elements(OutputPorts(AppliedActions(r.flows[TunnelFloodKey(kind, vlan)])))
      && !FdbRemoved(r.flows, kind, vlan, [FLOODING_ENTRY], r.flood)
  {
    assert FLOODING_ENTRY in [FLOODING_ENTRY];
  }

  // ------------------------------------------------ port_bound with no free tag

  /**
   * The record port_bound goes on to update, as written: after
   * provision_local_vlan (which takes tag from a non-empty pool) it reads
   * local_vlan_map[net_uuid]; with the pool empty provisioning logs and
   * adds nothing, and the read raises KeyError (None here).
   */
  function BoundRecordAsWritten(pool: set<int>, m: map<NetId, LocalVlanMapping>, net: NetId, networkType: NetworkType,
                                physicalNetwork: Option<string>, segmentationId: nat, tag: int): (r: Option<LocalVlanMapping>)
    ensures net in m ==> r == Some(m[net])
  {
    if net in m then Some(m[net])
    else if pool == {} then None
    else Some(NewLocalVlanMapping(tag, networkType, physicalNetwork, segmentationId))
  }

  /**
   * As written, binding a port of a new network while every tag is in use
   * raises KeyError, which escapes the device loop; the agent resynchronises
   * and fails again on every iteration. (Corrected: OfaAgent.PortBound,
   * which reports bound = false and leaves everything as it was.)
   */
  lemma PortBoundAsWrittenRaises(m: map<NetId, LocalVlanMapping>, net: NetId, networkType: NetworkType,
                                 physicalNetwork: Option<string>, segmentationId: nat, tag: int)
    requires TagsConserved({}, m) && net !in m
    ensures BoundRecordAsWritten({}, m, net, networkType, physicalNetwork, segmentationId, tag).None?
    ensures |m| == MAX_VLAN_TAG - MIN_VLAN_TAG
  {
    PoolSize({}, m);
  }

  // ------------------------------------------------ port_unbound's LOCAL_FLOOD entry

  /**
   * port_unbound's bridge calls as written: the port's CHECK_IN_PORT
   * entries go, the network is reclaimed when the port was its last, and
   * the port's LOCAL_OUT entry goes; the network's LOCAL_FLOOD entry is
   * neither rewritten for the remaining ports nor deleted.
   */
  function UnbindCallsAsWritten(vlan: int, networkType: NetworkType, segmentationId: nat, port: VifPort,
                                remaining: map<PortId, VifPort>, physPort: Option<int>, enableTunneling: bool): (r: seq<BridgeCall>)
    ensures AllAgentCalls(r) && AllAdmissible(r)
  {
    var reclaim := if |remaining| == 0 then ReclaimCalls(networkType, vlan, segmentationId, physPort, enableTunneling) else [];
    AllAgentCallsAppend([CheckInPortDeletePort(port.ofport)], reclaim);
    AllAgentCallsAppend([CheckInPortDeletePort(port.ofport)] + reclaim, UnbindOutCalls(vlan, port));
    [CheckInPortDeletePort(port.ofport)] + reclaim + UnbindOutCalls(vlan, port)
  }

  /**
   * As written, unbinding a port that shares its network leaves the
   * network's LOCAL_FLOOD entry as it was, so when it flooded to the port
   * it still does. (Corrected: AgentFlows.UnbindSpec, after which the entry
   * floods to exactly the remaining ports.)
   */
  lemma UnbindSharedAsWrittenKeepsFlood(t: FlowTable, vlan: int, networkType: NetworkType, segmentationId: nat, port: VifPort,
                                        remaining: map<PortId, VifPort>, physPort: Option<int>, enableTunneling: bool,
                                        floodUnicast: bool)
    requires |remaining| > 0 && LocalFloodKey(vlan, floodUnicast) in t
    ensures var t' := ApplyAll(t, UnbindCallsAsWritten(vlan, networkType, segmentationId, port, remaining, physPort, enableTunneling));
      LocalFloodKey(vlan, floodUnicast) in t' && t'[LocalFloodKey(vlan, floodUnicast)] == t[LocalFloodKey(vlan, floodUnicast)]
  {
    var calls := UnbindCallsAsWritten(vlan, networkType, segmentationId, port, remaining, physPort, enableTunneling);
    var first := [CheckInPortDeletePort(port.ofport)];
    assert calls == first + UnbindOutCalls(vlan, port);
    OneCallTables(CheckInPortDeletePort(port.ofport));
    TablesOfAppend(first, UnbindOutCalls(vlan, port));
    ApplyAllFrame(t, calls);
  }

  /**
   * As written, unbinding the last port of a network leaves its LOCAL_FLOOD
   * entry too: the reclaim that follows deletes only the network's ingress
   * and PHYS_FLOOD (or TUNNEL_IN) entries, so the entry still outputs to the
   * unbound port under a tag that goes back to the pool. (Corrected:
   * AgentFlows.UnbindFloodSpec, after which neither kind of entry remains.)
   */
  lemma UnbindLastAsWrittenKeepsFlood(t: FlowTable, vlan: int, networkType: NetworkType, segmentationId: nat, port: VifPort,
                                      physPort: Option<int>, enableTunneling: bool, floodUnicast: bool)
    requires LocalFloodKey(vlan, floodUnicast) in t
    ensures var t' := ApplyAll(t, UnbindCallsAsWritten(vlan, networkType, segmentationId, port, map[], physPort, enableTunneling));
      LocalFloodKey(vlan, floodUnicast) in t' && t'[LocalFloodKey(vlan, floodUnicast)] == t[LocalFloodKey(vlan, floodUnicast)]
  {
    var calls := UnbindCallsAsWritten(vlan, networkType, segmentationId, port, map[], physPort, enableTunneling);
    UnbindLastAsWrittenTables(vlan, networkType, segmentationId, port, physPort, enableTunneling);
    ApplyAllFrame(t, calls);
    var key := LocalFloodKey(vlan, floodUnicast);
    assert key.tableId !in TouchedTablesOf(calls);
  }

  /** port_unbound's calls as written for the last port touch no LOCAL_FLOOD entry. */
  lemma UnbindLastAsWrittenTables(vlan: int, networkType: NetworkType, segmentationId: nat, port: VifPort,
                                  physPort: Option<int>, enableTunneling: bool)
    ensures LOCAL_FLOOD !in TouchedTablesOf(UnbindCallsAsWritten(vlan, networkType, segmentationId, port, map[], physPort, enableTunneling))
  {
    var first := [CheckInPortDeletePort(port.ofport)];
    var reclaim := ReclaimCalls(networkType, vlan, segmentationId, physPort, enableTunneling);
    var out := UnbindOutCalls(vlan, port);
    assert UnbindCallsAsWritten(vlan, networkType, segmentationId, port, map[], physPort, enableTunneling) == first + reclaim + out;
    OneCallTables(CheckInPortDeletePort(port.ofport));
    ReclaimSparesLocalFlood(networkType, vlan, segmentationId, physPort, enableTunneling);
    TablesOfAppend(first, reclaim);
    TablesOfAppend(first + reclaim, out);
  }

  /** A network's reclaim touches no LOCAL_FLOOD entry. */
  lemma ReclaimSparesLocalFlood(networkType: NetworkType, vlan: int, segmentationId: nat, physPort: Option<int>, enableTunneling: bool)
    ensures LOCAL_FLOOD !in TouchedTablesOf(ReclaimCalls(networkType, vlan, segmentationId, physPort, enableTunneling))
  {
    var reclaim := ReclaimCalls(networkType, vlan, segmentationId, physPort, enableTunneling);
    if reclaim != [] {
      var c := reclaim[0];
      assert reclaim == [c];
      OneCallTables(c);
      assert c.ReclaimTenantTunnel? || c.ReclaimTenantPhysnet?;
    }
  }

  /**
   * A concrete instance: a network floods to OpenFlow ports 1 and 2; after
   * port 1 is unbound as written, its LOCAL_FLOOD entry still outputs to 1.
   */
  lemma UnbindAsWrittenFloodsToUnboundPort(vlan: int, port: VifPort, other: VifPort)
    requires port.ofport == 1 && other.ofport == 2 && other.vifId != port.vifId
    ensures var t := Apply(map[], LocalFloodUpdate(vlan, [1, 2], false));
      var t' := ApplyAll(t, UnbindCallsAsWritten(vlan, LocalNet, 0, port, map[other.vifId := other], None, false));
      LocalFloodKey(vlan, false) in t' && OutputPorts(AppliedActions(t'[LocalFloodKey(vlan, false)])) == [1, 2]
  {
    var t := Apply(map[], LocalFloodUpdate(vlan, [1, 2], false));
    LocalFloodUpdateSpec(map[], vlan, [1, 2], false);
    UnbindSharedAsWrittenKeepsFlood(t, vlan, LocalNet, 0, port, map[other.vifId := other], None, false, false);
  }

  // ------------------------------------------------ reclaim_tenant_physnet for a flat network

  /**
   * The CHECK_IN_PORT half of reclaim_tenant_physnet as written: a
   * non-strict delete for both network types, by port and tag for VLAN
   * and by port alone for flat.
   */
  function ReclaimPhysnetIngressAsWritten(t: FlowTable, networkType: NetworkType, segmentationId: nat, physPort: int): (r: FlowTable)
    ensures forall k :: k in r ==> k in t
  {
    Delete(t, OneTable(CHECK_IN_PORT), PhysnetInMatch(networkType, segmentationId, physPort))
  }

  /** What reclaim_tenant_physnet as written leaves: the flow table, and whether it raised. */
  datatype PhysnetReclaim = PhysnetReclaim(flows: FlowTable, raised: bool)

  /**
   * reclaim_tenant_physnet as written, on the segmentation id the agent
   * holds, which is None for a flat network: the tag with OFPVID_PRESENT
   * is computed before the branch on the network type, so a None id raises
   * TypeError before any flow is deleted.
   */
  function ReclaimTenantPhysnetAsWritten(t: FlowTable, networkType: NetworkType, tenant: int, segmentationId: Option<nat>,
                                         physPort: int): (r: PhysnetReclaim)
    ensures segmentationId.None? ==> r.raised && r.flows == t
    ensures segmentationId.Some? ==> !r.raised && forall k :: k in r.flows ==> k in t && r.flows[k] == t[k]
  {
    if segmentationId.None? then PhysnetReclaim(t, true)
    else
      var t1 := ReclaimPhysnetIngressAsWritten(t, networkType, segmentationId.value, physPort);
      DeleteSpec(t, OneTable(CHECK_IN_PORT), PhysnetInMatch(networkType, segmentationId.value, physPort));
      DeleteSpec(t1, OneTable(PHYS_FLOOD), MatchAll(tenant));
      PhysnetReclaim(Delete(t1, OneTable(PHYS_FLOOD), MatchAll(tenant)), false)
  }

  /**
   * As written, reclaiming a provisioned flat network raises and leaves
   * both of its entries, the untagged ingress entry and the PHYS_FLOOD
   * entry, in the switch. (Corrected: the reclaim of
   * Flows.IntegrationBridge.ReclaimTenantPhysnet, which undoes the
   * provision by FlowProperties.TenantPhysnetRoundTrip.)
   */
  lemma FlatReclaimAsWrittenKeepsFlows(t: FlowTable, tenant: int, physPort: int)
    ensures var t1 := Apply(t, ProvisionTenantPhysnet(FlatNet, tenant, 0, physPort));
      var r := ReclaimTenantPhysnetAsWritten(t1, FlatNet, tenant, None, physPort);
      && r.raised
      && PhysnetInEntry(FlatNet, tenant, 0, physPort).Key() in r.flows
      && PhysnetFloodEntry(FlatNet, tenant, 0, physPort).Key() in r.flows
  {
    var t1 := Apply(t, ProvisionTenantPhysnet(FlatNet, tenant, 0, physPort));
    var e1 := PhysnetInEntry(FlatNet, tenant, 0, physPort);
    var e2 := PhysnetFloodEntry(FlatNet, tenant, 0, physPort);
    InstallSpec(t, e1);
    InstallSpec(Install(t, e1), e2);
    assert e1.Key() != e2.Key();
  }

  /**
   * As written, once the segmentation id is an integer (which is how the
   * TypeError above goes away when the tag is computed for VLAN only),
   * reclaiming a flat network also removes the ingress entry of every VLAN
   * network on the same physical port, cutting those networks off from the
   * physical network. (Corrected: Flows.ReclaimPhysnetIngress with
   * FlatReclaimKeepsVlanIngress below.)
   */
  lemma FlatReclaimAsWrittenDropsVlanIngress(t: FlowTable, tenant: int, segmentationId: nat, vlanTenant: int, vlanSegment: nat,
                                             physPort: int)
    ensures var r := ReclaimTenantPhysnetAsWritten(t, FlatNet, tenant, Some(segmentationId), physPort);
      !r.raised && PhysnetInEntry(VlanNet, vlanTenant, vlanSegment, physPort).Key() !in r.flows
  {
    var k := PhysnetInEntry(VlanNet, vlanTenant, vlanSegment, physPort).Key();
    assert Selects(OneTable(CHECK_IN_PORT), PhysnetInMatch(FlatNet, segmentationId, physPort), k);
  }

  /**
   * Corrected, reclaiming a flat network removes only its own untagged
   * entry: every other CHECK_IN_PORT entry, in particular each VLAN
   * network's entry on the same port, stays as it was.
   */
  lemma FlatReclaimKeepsVlanIngress(t: FlowTable, segmentationId: nat, physPort: int, k: FlowKey)
    requires k in t && VlanVid in k.flowMatch
    ensures k in ReclaimPhysnetIngress(t, FlatNet, segmentationId, physPort)
    ensures ReclaimPhysnetIngress(t, FlatNet, segmentationId, physPort)[k] == t[k]
  {
    assert k != FlowKey(CHECK_IN_PORT, 1, PhysnetInMatch(FlatNet, segmentationId, physPort));
  }
}
