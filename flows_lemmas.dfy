/**
 * What the integration bridge's operations promise about the flow table as a
 * whole: each reclaim undoes its provision, the local flood entry of a
 * network is always exactly one of its two variants, and deleting a port
 * from CHECK_IN_PORT removes whatever entry it had there.
 */
module FlowProperties {
  import opened Wrappers
  import opened Constants
  import opened Tables
  import opened OpenFlow
  import opened Flows

  // ------------------------------------------------ flow-mod algebra

  /** A delete that selects the added entry, and nothing that was there before, undoes the add. */
  lemma InstallThenDelete(t: FlowTable, e: FlowEntry, sel: TableSelector, m: Match)
    requires Selects(sel, m, e.Key())
    requires forall k :: k in t ==> !Selects(sel, m, k)
    ensures Delete(Install(t, e), sel, m) == t
  {
    var r := Delete(Install(t, e), sel, m);
    InstallSpec(t, e);
    DeleteSpec(Install(t, e), sel, m);
    assert r.Keys == t.Keys;
  }

  /** A strict delete of the added entry's key undoes an add into a table that did not have that key. */
  lemma InstallThenDeleteStrict(t: FlowTable, e: FlowEntry)
    requires e.Key() !in t
    ensures DeleteStrict(Install(t, e), e.tableId, e.priority, e.flowMatch) == t
  {
    var r := DeleteStrict(Install(t, e), e.tableId, e.priority, e.flowMatch);
    InstallSpec(t, e);
    DeleteStrictSpec(Install(t, e), e.tableId, e.priority, e.flowMatch);
    assert r.Keys == t.Keys;
  }

  /** A delete that does not select an entry may be done before or after adding it. */
  lemma DeleteInstallCommute(t: FlowTable, e: FlowEntry, sel: TableSelector, m: Match)
    requires !Selects(sel, m, e.Key())
    ensures Delete(Install(t, e), sel, m) == Install(Delete(t, sel, m), e)
  {
    var l := Delete(Install(t, e), sel, m);
    var r := Install(Delete(t, sel, m), e);
    InstallSpec(t, e);
    DeleteSpec(Install(t, e), sel, m);
    DeleteSpec(t, sel, m);
    InstallSpec(Delete(t, sel, m), e);
    assert l.Keys == r.Keys;
  }

  /** A strict delete of another key may be done before or after adding an entry. */
  lemma DeleteStrictInstallCommute(t: FlowTable, e: FlowEntry, tableId: int, priority: int, m: Match)
    requires e.Key() != FlowKey(tableId, priority, m)
    ensures DeleteStrict(Install(t, e), tableId, priority, m) == Install(DeleteStrict(t, tableId, priority, m), e)
  {
    var l := DeleteStrict(Install(t, e), tableId, priority, m);
    var r := Install(DeleteStrict(t, tableId, priority, m), e);
    InstallSpec(t, e);
    DeleteStrictSpec(Install(t, e), tableId, priority, m);
    DeleteStrictSpec(t, tableId, priority, m);
    InstallSpec(DeleteStrict(t, tableId, priority, m), e);
    assert l.Keys == r.Keys;
  }

  // ------------------------------------------------ provision / reclaim

  /**
   * install_tunnel_output followed by delete_tunnel_output with the same
   * table, metadata and additional matches restores the flow table, when the
   * table had no entry of its own that the delete would select.
   */
  lemma TunnelOutputRoundTrip(t: FlowTable, tableId: int, metadata: int, segmentationId: nat, ports: seq<int>,
                              gotoNext: bool, additionalMatches: Match)
    requires Metadata !in additionalMatches
    requires forall k :: k in t ==> !Selects(OneTable(tableId), TunnelOutputMatch(metadata, additionalMatches), k)
    ensures Apply(Apply(t, InstallTunnelOutput(tableId, metadata, segmentationId, ports, gotoNext, additionalMatches)),
                  DeleteTunnelOutput(tableId, metadata, additionalMatches)) == t
  {
    var e := TunnelOutputEntry(tableId, metadata, segmentationId, ports, gotoNext, additionalMatches);
    assert e.flowMatch == TunnelOutputMatch(metadata, additionalMatches);
    InstallThenDelete(t, e, OneTable(tableId), TunnelOutputMatch(metadata, additionalMatches));
  }

  /** reclaim_tenant_tunnel removes exactly the entry provision_tenant_tunnel added. */
  lemma TenantTunnelRoundTrip(t: FlowTable, tunnelType: TunnelType, tenant: int, segmentationId: nat)
    requires forall k :: k in t ==> !Selects(OneTable(TunnelIn(tunnelType)), TenantTunnelMatch(segmentationId), k)
    ensures Apply(Apply(t, ProvisionTenantTunnel(tunnelType, tenant, segmentationId)),
                  ReclaimTenantTunnel(tunnelType, tenant, segmentationId)) == t
  {
    InstallThenDelete(t, TenantTunnelEntry(tunnelType, tenant, segmentationId),
                      OneTable(TunnelIn(tunnelType)), TenantTunnelMatch(segmentationId));
  }

  /**
   * reclaim_tenant_physnet removes exactly the two entries
   * provision_tenant_physnet added: for VLAN, when no entry of CHECK_IN_PORT
   * already matched the port and tag; for flat, when the port's untagged
   * entry was not there before (the port's VLAN entries stay); and in both
   * cases when PHYS_FLOOD had no entry of the tenant.
   */
  lemma TenantPhysnetRoundTrip(t: FlowTable, networkType: NetworkType, tenant: int, segmentationId: nat, physPort: int)
    requires IsPhysnetType(networkType)
    requires networkType == VlanNet ==>
      forall k :: k in t ==> !Selects(OneTable(CHECK_IN_PORT), PhysnetInMatch(networkType, segmentationId, physPort), k)
    requires networkType == FlatNet ==> FlowKey(CHECK_IN_PORT, 1, PhysnetInMatch(networkType, segmentationId, physPort)) !in t
    requires forall k :: k in t ==> !Selects(OneTable(PHYS_FLOOD), MatchAll(tenant), k)
    ensures Apply(Apply(t, ProvisionTenantPhysnet(networkType, tenant, segmentationId, physPort)),
                  ReclaimTenantPhysnet(networkType, tenant, segmentationId, physPort)) == t
  {
    var eIn := PhysnetInEntry(networkType, tenant, segmentationId, physPort);
    var eFlood := PhysnetFloodEntry(networkType, tenant, segmentationId, physPort);
    var m := PhysnetInMatch(networkType, segmentationId, physPort);
    var t1 := Install(t, eIn);
    if networkType == VlanNet {
      DeleteInstallCommute(t1, eFlood, OneTable(CHECK_IN_PORT), m);
      InstallThenDelete(t, eIn, OneTable(CHECK_IN_PORT), m);
    } else {
      DeleteStrictInstallCommute(t1, eFlood, CHECK_IN_PORT, 1, m);
      InstallThenDeleteStrict(t, eIn);
    }
    assert ReclaimPhysnetIngress(Install(t1, eFlood), networkType, segmentationId, physPort) == Install(t, eFlood);
    InstallThenDelete(t, eFlood, OneTable(PHYS_FLOOD), MatchAll(tenant));
  }

  /** local_out_delete_port removes exactly what local_out_add_port added for the same network and MAC. */
  lemma LocalOutRoundTrip(t: FlowTable, tenant: int, port: int, mac: string)
    requires forall k :: k in t ==> !Selects(OneTable(LOCAL_OUT), LocalOutMatch(tenant, mac), k)
    ensures Apply(Apply(t, LocalOutAddPort(tenant, port, mac)), LocalOutDeletePort(tenant, mac)) == t
  {
    InstallThenDelete(t, LocalOutEntry(tenant, port, mac), OneTable(LOCAL_OUT), LocalOutMatch(tenant, mac));
  }

  // ------------------------------------------------ local flooding

  /** The key of a network's LOCAL_FLOOD entry: match-all when flooding unicast, multicast-only otherwise. */
  function LocalFloodKey(tenant: int, floodUnicast: bool): (k: FlowKey)
    ensures k.tableId == LOCAL_FLOOD && k.priority == 1
    ensures Metadata in k.flowMatch && k.flowMatch[Metadata] == Num(tenant)
    ensures EthDst in k.flowMatch <==> !floodUnicast
  {
    FlowKey(LOCAL_FLOOD, 1, if floodUnicast then MatchAll(tenant) else MatchMulticast(tenant))
  }

  /**
   * After local_flood_update the network has the one LOCAL_FLOOD variant
   * the policy asks for, outputting to exactly the given ports in order;
   * the other variant is gone; every other entry is as it was.
   */
  lemma LocalFloodUpdateSpec(t: FlowTable, tenant: int, ports: seq<int>, floodUnicast: bool)
    ensures LocalFloodKey(tenant, floodUnicast) in Apply(t, LocalFloodUpdate(tenant, ports, floodUnicast))
    ensures OutputPorts(AppliedActions(Apply(t, LocalFloodUpdate(tenant, ports, floodUnicast))[LocalFloodKey(tenant, floodUnicast)])) == ports
    ensures LocalFloodKey(tenant, !floodUnicast) !in Apply(t, LocalFloodUpdate(tenant, ports, floodUnicast))
    ensures forall k :: k != LocalFloodKey(tenant, true) && k != LocalFloodKey(tenant, false) ==>
      (k in Apply(t, LocalFloodUpdate(tenant, ports, floodUnicast)) <==> k in t)
    ensures forall k :: k in t && k != LocalFloodKey(tenant, true) && k != LocalFloodKey(tenant, false) ==>
      Apply(t, LocalFloodUpdate(tenant, ports, floodUnicast))[k] == t[k]
  {
    var e := LocalFloodEntry(tenant, ports, floodUnicast);
    var del := LocalFloodKey(tenant, !floodUnicast);
    assert e.Key() == LocalFloodKey(tenant, floodUnicast);
    assert e.Key() != del;
    InstallSpec(t, e);
    DeleteStrictSpec(Install(t, e), LOCAL_FLOOD, 1, del.flowMatch);
  }

  /** Whatever the policy was, local_flood_delete removes both LOCAL_FLOOD variants of the network. */
  lemma LocalFloodDeleteRemovesBoth(t: FlowTable, tenant: int)
    ensures LocalFloodKey(tenant, true) !in Apply(t, LocalFloodDelete(tenant))
    ensures LocalFloodKey(tenant, false) !in Apply(t, LocalFloodDelete(tenant))
    ensures forall k :: k in t && k.tableId != LOCAL_FLOOD ==> k in Apply(t, LocalFloodDelete(tenant))
  {
    DeleteSpec(t, OneTable(LOCAL_FLOOD), MatchAll(tenant));
    assert Selects(OneTable(LOCAL_FLOOD), MatchAll(tenant), LocalFloodKey(tenant, false));
  }

  // ------------------------------------------------ CHECK_IN_PORT

  /** The CHECK_IN_PORT entries that concern a port: those that match its in_port. */
  predicate InPortEntry(k: FlowKey, port: int)
  {
    k.tableId == CHECK_IN_PORT && InPort in k.flowMatch && k.flowMatch[InPort] == Num(port)
  }

  /**
   * check_in_port_delete_port removes every CHECK_IN_PORT entry for the
   * port, however it was added (local port, tunnel port, physical network),
   * and nothing else.
   */
  lemma CheckInPortDeleteSpec(t: FlowTable, port: int)
    ensures forall k :: k in Apply(t, CheckInPortDeletePort(port)) <==> k in t && !InPortEntry(k, port)
    ensures forall k :: k in Apply(t, CheckInPortDeletePort(port)) ==> Apply(t, CheckInPortDeletePort(port))[k] == t[k]
  {
    DeleteSpec(t, OneTable(CHECK_IN_PORT), map[InPort := Num(port)]);
  }

  /** A local port's CHECK_IN_PORT entry is gone after the port is deleted. */
  lemma CheckInPortLocalRoundTrip(t: FlowTable, tenant: int, port: int)
    ensures CheckInPortLocalEntry(tenant, port).Key()
        !in Apply(Apply(t, CheckInPortAddLocalPort(tenant, port)), CheckInPortDeletePort(port))
  {
    CheckInPortDeleteSpec(Apply(t, CheckInPortAddLocalPort(tenant, port)), port);
    assert InPortEntry(CheckInPortLocalEntry(tenant, port).Key(), port);
  }

  /**
   * After check_in_port_add_tunnel_port the port's traffic goes to its
   * tunnel type's TUNNEL_IN table, and every other entry is as it was.
   */
  lemma CheckInPortTunnelInstalled(t: FlowTable, tunnelType: TunnelType, port: int)
    ensures var t' := Apply(t, CheckInPortAddTunnelPort(tunnelType, port));
      var k := FlowKey(CHECK_IN_PORT, 1, map[InPort := Num(port)]);
      && k in t' && GotoTarget(t'[k]) == Some(TunnelIn(tunnelType))
      && forall k' :: k' in t && k' != k ==> k' in t' && t'[k'] == t[k']
  {
    InstallSpec(t, CheckInPortTunnelEntry(tunnelType, port));
  }

  /** A tunnel port's CHECK_IN_PORT entry is gone after the port is deleted. */
  lemma CheckInPortTunnelRoundTrip(t: FlowTable, tunnelType: TunnelType, port: int)
    ensures CheckInPortTunnelEntry(tunnelType, port).Key()
        !in Apply(Apply(t, CheckInPortAddTunnelPort(tunnelType, port)), CheckInPortDeletePort(port))
  {
    CheckInPortDeleteSpec(Apply(t, CheckInPortAddTunnelPort(tunnelType, port)), port);
    assert InPortEntry(CheckInPortTunnelEntry(tunnelType, port).Key(), port);
  }
}
