/**
 * The bridge calls the agent makes for each of its events, as lists of
 * BridgeCall, and what those lists do to the flow table as a whole: a
 * network's reclaim undoes its provision, binding a port leaves the flood
 * policy the port set asks for, unbinding removes what binding added.
 */
module AgentFlows {
  import opened Wrappers
  import opened Constants
  import opened Tables
  import opened OpenFlow
  import opened Flows
  import opened FlowProperties
  import opened AgentState

  /** Every call of the list is one the bridge accepts. */
  predicate AllAdmissible(calls: seq<BridgeCall>)
  {
    forall i :: 0 <= i < |calls| ==> Admissible(calls[i])
  }

  /** A call the agent makes after start-up: admissible, and not the full reset. */
  predicate AgentCall(c: BridgeCall)
  {
    Admissible(c) && !c.SetupDefaultTable?
  }

  predicate AllAgentCalls(calls: seq<BridgeCall>)
  {
    forall i :: 0 <= i < |calls| ==> AgentCall(calls[i])
  }

  // ------------------------------------------------ which tables a call touches

  /** The tables in which the call may add or overwrite an entry. */
  function InstallTables(c: BridgeCall): set<int>
  {
    match c
    case InstallTunnelOutput(tableId, _, _, _, _, _) => {tableId}
    case ProvisionTenantTunnel(tt, _, _) => {TunnelIn(tt)}
    case ProvisionTenantPhysnet(_, _, _, _) => {CHECK_IN_PORT, PHYS_FLOOD}
    case CheckInPortAddTunnelPort(_, _) => {CHECK_IN_PORT}
    case CheckInPortAddLocalPort(_, _) => {CHECK_IN_PORT}
    case LocalFloodUpdate(_, _, _) => {LOCAL_FLOOD}
    case LocalOutAddPort(_, _, _) => {LOCAL_OUT}
    case _ => {}
  }

  /** The tables from which the call may remove an entry. */
  function DeleteTables(c: BridgeCall): set<int>
  {
    match c
    case DeleteTunnelOutput(tableId, _, _) => {tableId}
    case ReclaimTenantTunnel(tt, _, _) => {TunnelIn(tt)}
    case ReclaimTenantPhysnet(_, _, _, _) => {CHECK_IN_PORT, PHYS_FLOOD}
    case CheckInPortDeletePort(_) => {CHECK_IN_PORT}
    case LocalFloodUpdate(_, _, _) => {LOCAL_FLOOD}
    case LocalFloodDelete(_) => {LOCAL_FLOOD}
    case LocalOutDeletePort(_, _) => {LOCAL_OUT}
    case _ => {}
  }

  /**
   * A call adds no entry outside its install tables and removes none
   * outside its install and delete tables.
   */
  lemma ApplyFrame(t: FlowTable, c: BridgeCall)
    requires AgentCall(c)
    ensures forall k :: k in Apply(t, c) && k.tableId !in InstallTables(c) ==> k in t && Apply(t, c)[k] == t[k]
    ensures forall k :: k in t && k.tableId !in InstallTables(c) + DeleteTables(c) ==>
      k in Apply(t, c) && Apply(t, c)[k] == t[k]
  {
    forall k {
      ApplyFrameAt(t, c, k);
    }
  }

  lemma ApplyFrameAt(t: FlowTable, c: BridgeCall, k: FlowKey)
    requires AgentCall(c)
    ensures k in Apply(t, c) && k.tableId !in InstallTables(c) ==> k in t && Apply(t, c)[k] == t[k]
    ensures k in t && k.tableId !in InstallTables(c) + DeleteTables(c) ==> k in Apply(t, c) && Apply(t, c)[k] == t[k]
  {
    match c
    case InstallTunnelOutput(tableId, metadata, seg, ports, gotoNext, extra) =>
      InstallFrameAt(t, TunnelOutputEntry(tableId, metadata, seg, ports, gotoNext, extra), k);
    case DeleteTunnelOutput(tableId, metadata, extra) =>
    case ProvisionTenantTunnel(tt, tenant, seg) =>
      InstallFrameAt(t, TenantTunnelEntry(tt, tenant, seg), k);
    case ReclaimTenantTunnel(tt, _, seg) =>
    case ProvisionTenantPhysnet(nt, tenant, seg, port) =>
      InstallFrameAt(t, PhysnetInEntry(nt, tenant, seg, port), k);
      InstallFrameAt(Install(t, PhysnetInEntry(nt, tenant, seg, port)), PhysnetFloodEntry(nt, tenant, seg, port), k);
    case ReclaimTenantPhysnet(nt, tenant, seg, port) =>
    case CheckInPortAddTunnelPort(tt, port) =>
      InstallFrameAt(t, CheckInPortTunnelEntry(tt, port), k);
    case CheckInPortAddLocalPort(tenant, port) =>
      InstallFrameAt(t, CheckInPortLocalEntry(tenant, port), k);
    case CheckInPortDeletePort(port) =>
    case LocalFloodUpdate(tenant, ports, floodUnicast) =>
      InstallFrameAt(t, LocalFloodEntry(tenant, ports, floodUnicast), k);
    case LocalFloodDelete(tenant) =>
    case LocalOutAddPort(tenant, port, mac) =>
      InstallFrameAt(t, LocalOutEntry(tenant, port, mac), k);
    case LocalOutDeletePort(tenant, mac) =>
  }

  /** An add changes only its own table. */
  lemma InstallFrameAt(t: FlowTable, e: FlowEntry, k: FlowKey)
    ensures k.tableId != e.tableId ==> (k in Install(t, e) <==> k in t)
    ensures k.tableId != e.tableId && k in t ==> Install(t, e)[k] == t[k]
  {
  }

  /** The tables in which some call of the list may add or overwrite an entry. */
  function InstallTablesOf(calls: seq<BridgeCall>): set<int>
  {
    if calls == [] then {} else InstallTablesOf(calls[..|calls| - 1]) + InstallTables(calls[|calls| - 1])
  }

  /** The tables some call of the list may add to, overwrite or remove from. */
  function TouchedTablesOf(calls: seq<BridgeCall>): set<int>
  {
    if calls == [] then {}
    else TouchedTablesOf(calls[..|calls| - 1]) + InstallTables(calls[|calls| - 1]) + DeleteTables(calls[|calls| - 1])
  }

  /** A list of calls leaves the tables it does not touch as they were. */
  lemma {:induction false} ApplyAllFrame(t: FlowTable, calls: seq<BridgeCall>)
    requires AllAgentCalls(calls)
    ensures forall k :: k in ApplyAll(t, calls) && k.tableId !in InstallTablesOf(calls) ==>
      k in t && ApplyAll(t, calls)[k] == t[k]
    ensures forall k :: k in t && k.tableId !in TouchedTablesOf(calls) ==>
      k in ApplyAll(t, calls) && ApplyAll(t, calls)[k] == t[k]
  {
    if calls != [] {
      var front := calls[..|calls| - 1];
      assert AllAgentCalls(front);
      ApplyAllFrame(t, front);
      ApplyFrame(ApplyAll(t, front), calls[|calls| - 1]);
    }
  }

  /** Performing a + b is performing a, then b. */
  lemma {:induction false} ApplyAllAppend(t: FlowTable, a: seq<BridgeCall>, b: seq<BridgeCall>)
    requires AllAdmissible(a) && AllAdmissible(b)
    ensures AllAdmissible(a + b)
    ensures ApplyAll(t, a + b) == ApplyAll(ApplyAll(t, a), b)
  {
    if b != [] {
      var front := b[..|b| - 1];
      ApplyAllAppend(t, a, front);
      assert (a + b)[..|a + b| - 1] == a + front;
    } else {
      assert a + b == a;
    }
  }

  /** Performing a one-call list is performing the call. */
  lemma ApplyAllOne(t: FlowTable, c: BridgeCall)
    requires Admissible(c)
    ensures ApplyAll(t, [c]) == Apply(t, c)
  {
    assert [c][..0] == [];
  }

  // ------------------------------------------------ provisioning a network

  /** The OpenFlow port of the physical network's bridge, when the agent has one. */
  function PhysPort(intOfports: map<string, int>, physicalNetwork: Option<string>): (r: Option<int>)
    ensures r.Some? <==> physicalNetwork.Some? && physicalNetwork.value in intOfports
    ensures r.Some? ==> r.value == intOfports[physicalNetwork.value]
  {
    if physicalNetwork.Some? && physicalNetwork.value in intOfports then Some(intOfports[physicalNetwork.value]) else None
  }

  /**
   * provision_local_vlan's flows: a tunnel network's TUNNEL_IN entry when
   * tunnelling is enabled; a VLAN or flat network's two entries when its
   * physical network has a bridge; nothing for a local or unknown type.
   */
  function ProvisionCalls(networkType: NetworkType, lvid: int, segmentationId: nat, physPort: Option<int>,
                          enableTunneling: bool): (r: seq<BridgeCall>)
    ensures AllAgentCalls(r) && AllAdmissible(r)
    ensures |r| <= 1
    ensures r != [] <==> (networkType.TunnelNet? && enableTunneling) || (IsPhysnetType(networkType) && physPort.Some?)
  {
    match networkType
    case TunnelNet(kind) =>
      if enableTunneling then [ProvisionTenantTunnel(kind, lvid, segmentationId)] else []
    case VlanNet =>
      if physPort.Some? then [ProvisionTenantPhysnet(networkType, lvid, segmentationId, physPort.value)] else []
    case FlatNet =>
      if physPort.Some? then [ProvisionTenantPhysnet(networkType, lvid, segmentationId, physPort.value)] else []
    case _ => []
  }

  /** reclaim_local_vlan's flows: the counterpart of each provision call. */
  function ReclaimCalls(networkType: NetworkType, lvid: int, segmentationId: nat, physPort: Option<int>,
                        enableTunneling: bool): (r: seq<BridgeCall>)
    ensures AllAgentCalls(r) && AllAdmissible(r)
    ensures InstallTablesOf(r) == {}
    ensures |r| <= 1
  {
    var r := match networkType
      case TunnelNet(kind) =>
        if enableTunneling then [ReclaimTenantTunnel(kind, lvid, segmentationId)] else []
      case VlanNet =>
        if physPort.Some? then [ReclaimTenantPhysnet(networkType, lvid, segmentationId, physPort.value)] else []
      case FlatNet =>
        if physPort.Some? then [ReclaimTenantPhysnet(networkType, lvid, segmentationId, physPort.value)] else []
      case _ => [];
    assert r != [] ==> r[..0] == [];
    r
  }

  /**
   * The table holds no entry the network's provision would install or its
   * reclaim would remove: no other network shares its tunnel key or, on its
   * physical port, its VLAN id (flat: its in_port entry).
   */
  predicate NetworkFlowsAbsent(t: FlowTable, networkType: NetworkType, lvid: int, segmentationId: nat, physPort: Option<int>)
  {
    match networkType
    case TunnelNet(kind) =>
      forall k :: k in t ==> !Selects(OneTable(TunnelIn(kind)), TenantTunnelMatch(segmentationId), k)
    case VlanNet =>
      physPort.Some? ==>
        && (forall k :: k in t ==> !Selects(OneTable(CHECK_IN_PORT), PhysnetInMatch(networkType, segmentationId, physPort.value), k))
        && (forall k :: k in t ==> !Selects(OneTable(PHYS_FLOOD), MatchAll(lvid), k))
    case FlatNet =>
      physPort.Some? ==>
        && FlowKey(CHECK_IN_PORT, 1, PhysnetInMatch(networkType, segmentationId, physPort.value)) !in t
        && (forall k :: k in t ==> !Selects(OneTable(PHYS_FLOOD), MatchAll(lvid), k))
    case _ => true
  }

  /** Reclaiming a network right after provisioning it gives back the table it started from. */
  lemma ProvisionReclaimRoundTrip(t: FlowTable, networkType: NetworkType, lvid: int, segmentationId: nat,
                                  physPort: Option<int>, enableTunneling: bool)
    requires NetworkFlowsAbsent(t, networkType, lvid, segmentationId, physPort)
    ensures ApplyAll(ApplyAll(t, ProvisionCalls(networkType, lvid, segmentationId, physPort, enableTunneling)),
                     ReclaimCalls(networkType, lvid, segmentationId, physPort, enableTunneling)) == t
  {
    var p := ProvisionCalls(networkType, lvid, segmentationId, physPort, enableTunneling);
    var r := ReclaimCalls(networkType, lvid, segmentationId, physPort, enableTunneling);
    if p != [] {
      ApplyAllOne(t, p[0]);
      assert p == [p[0]] && r == [r[0]];
      ApplyAllOne(Apply(t, p[0]), r[0]);
      match networkType
      case TunnelNet(kind) =>
        TenantTunnelRoundTrip(t, kind, lvid, segmentationId);
      case VlanNet =>
        TenantPhysnetRoundTrip(t, networkType, lvid, segmentationId, physPort.value);
      case FlatNet =>
        TenantPhysnetRoundTrip(t, networkType, lvid, segmentationId, physPort.value);
    }
  }

  // ------------------------------------------------ binding and unbinding a port

  /**
   * port_bound's flows: the port's CHECK_IN_PORT entry, the network's
   * LOCAL_FLOOD entry for the whole port set, and the port's LOCAL_OUT entry
   * when its MAC is known.
   */
  function BindCalls(vlan: int, port: VifPort, vifPorts: map<PortId, VifPort>, floodPorts: seq<int>): (r: seq<BridgeCall>)
    ensures AllAgentCalls(r) && AllAdmissible(r)
  {
    [CheckInPortAddLocalPort(vlan, port.ofport), LocalFloodUpdate(vlan, floodPorts, FloodUnicast(vifPorts))]
    + (if port.vifMac.Some? then [LocalOutAddPort(vlan, port.ofport, port.vifMac.value)] else [])
  }

  /**
   * After binding, traffic from the port is tagged with its network; the
   * network floods to exactly floodPorts, unicast included iff some bound
   * port's MAC is unknown, and the other LOCAL_FLOOD variant is gone; the
   * port's LOCAL_OUT entry exists iff its MAC is known.
   */
  lemma BindSpec(t: FlowTable, vlan: int, port: VifPort, vifPorts: map<PortId, VifPort>, floodPorts: seq<int>)
    ensures CheckInPortLocalEntry(vlan, port.ofport).Key() in ApplyAll(t, BindCalls(vlan, port, vifPorts, floodPorts))
    ensures ApplyAll(t, BindCalls(vlan, port, vifPorts, floodPorts))[CheckInPortLocalEntry(vlan, port.ofport).Key()]
         == CheckInPortLocalEntry(vlan, port.ofport).instructions
    ensures LocalFloodKey(vlan, FloodUnicast(vifPorts)) in ApplyAll(t, BindCalls(vlan, port, vifPorts, floodPorts))
    ensures OutputPorts(AppliedActions(ApplyAll(t, BindCalls(vlan, port, vifPorts, floodPorts))[LocalFloodKey(vlan, FloodUnicast(vifPorts))]))
         == floodPorts
    ensures LocalFloodKey(vlan, !FloodUnicast(vifPorts)) !in ApplyAll(t, BindCalls(vlan, port, vifPorts, floodPorts))
    ensures port.vifMac.Some? ==> LocalOutEntry(vlan, port.ofport, port.vifMac.value).Key() in ApplyAll(t, BindCalls(vlan, port, vifPorts, floodPorts))
    ensures port.vifMac.None? ==> forall k: FlowKey :: k.tableId == LOCAL_OUT ==>
      (k in ApplyAll(t, BindCalls(vlan, port, vifPorts, floodPorts)) <==> k in t)
  {
    BindUnfold(t, vlan, port, vifPorts, floodPorts);
    var u := FloodUnicast(vifPorts);
    var t2 := Apply(Apply(t, CheckInPortAddLocalPort(vlan, port.ofport)), LocalFloodUpdate(vlan, floodPorts, u));
    BindFirstTwo(t, vlan, port.ofport, floodPorts, u);
    if port.vifMac.Some? {
      BindLocalOut(t2, vlan, port.ofport, port.vifMac.value, u);
    }
  }

  /** After the CHECK_IN_PORT and LOCAL_FLOOD calls of binding. */
  lemma BindFirstTwo(t: FlowTable, vlan: int, ofport: int, floodPorts: seq<int>, u: bool)
    ensures var t2 := Apply(Apply(t, CheckInPortAddLocalPort(vlan, ofport)), LocalFloodUpdate(vlan, floodPorts, u));
      && CheckInPortLocalEntry(vlan, ofport).Key() in t2
      && t2[CheckInPortLocalEntry(vlan, ofport).Key()] == CheckInPortLocalEntry(vlan, ofport).instructions
      && LocalFloodKey(vlan, u) in t2
      && OutputPorts(AppliedActions(t2[LocalFloodKey(vlan, u)])) == floodPorts
      && LocalFloodKey(vlan, !u) !in t2
      && forall k: FlowKey :: k.tableId == LOCAL_OUT ==> (k in t2 <==> k in t)
  {
    var a := CheckInPortAddLocalPort(vlan, ofport);
    var b := LocalFloodUpdate(vlan, floodPorts, u);
    var e := CheckInPortLocalEntry(vlan, ofport);
    LocalFloodUpdateSpec(Apply(t, a), vlan, floodPorts, u);
    ApplyFrameAt(Apply(t, a), b, e.Key());
    forall k: FlowKey | k.tableId == LOCAL_OUT
      ensures k in Apply(Apply(t, a), b) <==> k in t
    {
      ApplyFrameAt(t, a, k);
      ApplyFrameAt(Apply(t, a), b, k);
    }
  }

  /** The LOCAL_OUT call of binding adds the port's entry and leaves the other tables alone. */
  lemma BindLocalOut(t2: FlowTable, vlan: int, ofport: int, mac: string, u: bool)
    ensures LocalOutEntry(vlan, ofport, mac).Key() in Apply(t2, LocalOutAddPort(vlan, ofport, mac))
    ensures forall k: FlowKey :: k.tableId != LOCAL_OUT ==>
      (k in Apply(t2, LocalOutAddPort(vlan, ofport, mac)) <==> k in t2)
    ensures forall k: FlowKey :: k.tableId != LOCAL_OUT && k in t2 ==> Apply(t2, LocalOutAddPort(vlan, ofport, mac))[k] == t2[k]
  {
  }

  /** The bind calls, performed one after another. */
  lemma BindUnfold(t: FlowTable, vlan: int, port: VifPort, vifPorts: map<PortId, VifPort>, floodPorts: seq<int>)
    ensures var t2 := Apply(Apply(t, CheckInPortAddLocalPort(vlan, port.ofport)),
                            LocalFloodUpdate(vlan, floodPorts, FloodUnicast(vifPorts)));
      ApplyAll(t, BindCalls(vlan, port, vifPorts, floodPorts))
        == if port.vifMac.Some? then Apply(t2, LocalOutAddPort(vlan, port.ofport, port.vifMac.value)) else t2
  {
    var a := CheckInPortAddLocalPort(vlan, port.ofport);
    var b := LocalFloodUpdate(vlan, floodPorts, FloodUnicast(vifPorts));
    ApplyAllOne(t, a);
    ApplyAllSnoc(t, [a], b);
    assert [a] + [b] == [a, b];
    if port.vifMac.Some? {
      var c := LocalOutAddPort(vlan, port.ofport, port.vifMac.value);
      ApplyAllSnoc(t, [a, b], c);
      assert BindCalls(vlan, port, vifPorts, floodPorts) == [a, b] + [c];
    } else {
      assert BindCalls(vlan, port, vifPorts, floodPorts) == [a, b];
    }
  }

  /**
   * The flows of unbinding a port from its network (corrected): its
   * CHECK_IN_PORT entry goes; the LOCAL_FLOOD entry is rewritten for the
   * remaining ports, or, when none remain, removed together with the
   * network's own flows; the port's LOCAL_OUT entry goes when its MAC is
   * known.
   */
  function UnbindCalls(vlan: int, networkType: NetworkType, segmentationId: nat, port: VifPort,
                       remaining: map<PortId, VifPort>, floodPorts: seq<int>, physPort: Option<int>,
                       enableTunneling: bool): (r: seq<BridgeCall>)
    ensures AllAgentCalls(r) && AllAdmissible(r)
  {
    [CheckInPortDeletePort(port.ofport)]
    + UnbindFloodCalls(vlan, networkType, segmentationId, remaining, floodPorts, physPort, enableTunneling)
    + UnbindOutCalls(vlan, port)
  }

  /**
   * The LOCAL_FLOOD part of unbinding, with the network's reclaim when no
   * port remains; deleting the entry then is the correction of
   * Findings.UnbindLastAsWrittenKeepsFlood.
   */
  function UnbindFloodCalls(vlan: int, networkType: NetworkType, segmentationId: nat, remaining: map<PortId, VifPort>,
                            floodPorts: seq<int>, physPort: Option<int>, enableTunneling: bool): (r: seq<BridgeCall>)
    ensures AllAgentCalls(r) && AllAdmissible(r)
  {
    if |remaining| > 0 then [LocalFloodUpdate(vlan, floodPorts, FloodUnicast(remaining))]
    else [LocalFloodDelete(vlan)] + ReclaimCalls(networkType, vlan, segmentationId, physPort, enableTunneling)
  }

  /** The LOCAL_FLOOD part of unbinding adds entries to LOCAL_FLOOD only. */
  lemma UnbindFloodTables(vlan: int, networkType: NetworkType, segmentationId: nat, remaining: map<PortId, VifPort>,
                          floodPorts: seq<int>, physPort: Option<int>, enableTunneling: bool)
    ensures InstallTablesOf(UnbindFloodCalls(vlan, networkType, segmentationId, remaining, floodPorts, physPort, enableTunneling)) <= {LOCAL_FLOOD}
  {
    if |remaining| > 0 {
      OneCallTables(LocalFloodUpdate(vlan, floodPorts, FloodUnicast(remaining)));
    } else {
      var reclaim := ReclaimCalls(networkType, vlan, segmentationId, physPort, enableTunneling);
      var calls := UnbindFloodCalls(vlan, networkType, segmentationId, remaining, floodPorts, physPort, enableTunneling);
      assert calls == [LocalFloodDelete(vlan)] + reclaim;
      OneCallTables(LocalFloodDelete(vlan));
      assert InstallTablesOf([LocalFloodDelete(vlan)]) == {};
      assert InstallTablesOf(reclaim) == {};
      TablesOfAppend([LocalFloodDelete(vlan)], reclaim);
      assert InstallTablesOf(calls) == {};
    }
  }

  /** The tables of a one-call list are the call's. */
  lemma OneCallTables(c: BridgeCall)
    ensures InstallTablesOf([c]) == InstallTables(c)
    ensures TouchedTablesOf([c]) == InstallTables(c) + DeleteTables(c)
  {
    assert [c][..0] == [];
  }

  /** The LOCAL_OUT part of unbinding: the port's entry goes when its MAC is known. */
  function UnbindOutCalls(vlan: int, port: VifPort): (r: seq<BridgeCall>)
    ensures AllAgentCalls(r) && AllAdmissible(r)
    ensures InstallTablesOf(r) == {} && TouchedTablesOf(r) <= {LOCAL_OUT}
  {
    if port.vifMac.Some? then
      var r := [LocalOutDeletePort(vlan, port.vifMac.value)];
      assert r[..0] == [];
      r
    else []
  }

  lemma AllAgentCallsAppend(a: seq<BridgeCall>, b: seq<BridgeCall>)
    requires AllAgentCalls(a) && AllAgentCalls(b)
    ensures AllAgentCalls(a + b)
  {
  }

  /** The tables of a + b are those of a and those of b. */
  lemma {:induction false} TablesOfAppend(a: seq<BridgeCall>, b: seq<BridgeCall>)
    ensures InstallTablesOf(a + b) == InstallTablesOf(a) + InstallTablesOf(b)
    ensures TouchedTablesOf(a + b) == TouchedTablesOf(a) + TouchedTablesOf(b)
  {
    if b != [] {
      TablesOfAppend(a, b[..|b| - 1]);
      assert (a + b)[..|a + b| - 1] == a + b[..|b| - 1];
    } else {
      assert a + b == a;
    }
  }

  /** The table after unbinding. */
  function AfterUnbind(t: FlowTable, vlan: int, networkType: NetworkType, segmentationId: nat, port: VifPort,
                       remaining: map<PortId, VifPort>, floodPorts: seq<int>, physPort: Option<int>,
                       enableTunneling: bool): FlowTable
  {
    ApplyAll(t, UnbindCalls(vlan, networkType, segmentationId, port, remaining, floodPorts, physPort, enableTunneling))
  }

  /**
   * After unbinding, no CHECK_IN_PORT entry matches the port any more and
   * its LOCAL_OUT entry is gone; the network floods to exactly the
   * remaining ports with the policy they ask for, or, when none remain,
   * has no LOCAL_FLOOD entry at all.
   */
  lemma UnbindSpec(t: FlowTable, vlan: int, networkType: NetworkType, segmentationId: nat, port: VifPort,
                   remaining: map<PortId, VifPort>, floodPorts: seq<int>, physPort: Option<int>, enableTunneling: bool)
    ensures var t' := AfterUnbind(t, vlan, networkType, segmentationId, port, remaining, floodPorts, physPort, enableTunneling);
      forall k :: k in t' ==> !InPortEntry(k, port.ofport)
    ensures var t' := AfterUnbind(t, vlan, networkType, segmentationId, port, remaining, floodPorts, physPort, enableTunneling);
      port.vifMac.Some? ==> LocalOutEntry(vlan, port.ofport, port.vifMac.value).Key() !in t'
    ensures var t' := AfterUnbind(t, vlan, networkType, segmentationId, port, remaining, floodPorts, physPort, enableTunneling);
      |remaining| > 0 ==>
        && LocalFloodKey(vlan, FloodUnicast(remaining)) in t'
        && OutputPorts(AppliedActions(t'[LocalFloodKey(vlan, FloodUnicast(remaining))])) == floodPorts
        && LocalFloodKey(vlan, !FloodUnicast(remaining)) !in t'
    ensures var t' := AfterUnbind(t, vlan, networkType, segmentationId, port, remaining, floodPorts, physPort, enableTunneling);
      |remaining| == 0 ==> LocalFloodKey(vlan, true) !in t' && LocalFloodKey(vlan, false) !in t'
  {
    var first := CheckInPortDeletePort(port.ofport);
    var flood := UnbindFloodCalls(vlan, networkType, segmentationId, remaining, floodPorts, physPort, enableTunneling);
    var last := UnbindOutCalls(vlan, port);
    var t1 := Apply(t, first);
    var t2 := ApplyAll(t1, flood);
    UnbindUnfold(t, vlan, networkType, segmentationId, port, remaining, floodPorts, physPort, enableTunneling);
    CheckInPortDeleteSpec(t, port.ofport);
    UnbindFloodTables(vlan, networkType, segmentationId, remaining, floodPorts, physPort, enableTunneling);
    UnbindInPortGone(t1, port.ofport, flood, last);
    UnbindFloodSpec(t1, vlan, networkType, segmentationId, remaining, floodPorts, physPort, enableTunneling);
    UnbindOutSpec(t2, vlan, port);
    UnbindOutKeeps(t2, vlan, port, LocalFloodKey(vlan, true));
    UnbindOutKeeps(t2, vlan, port, LocalFloodKey(vlan, false));
  }

  /** The unbind calls as their three parts, performed one after another. */
  lemma UnbindUnfold(t: FlowTable, vlan: int, networkType: NetworkType, segmentationId: nat, port: VifPort,
                     remaining: map<PortId, VifPort>, floodPorts: seq<int>, physPort: Option<int>, enableTunneling: bool)
    ensures AfterUnbind(t, vlan, networkType, segmentationId, port, remaining, floodPorts, physPort, enableTunneling)
         == ApplyAll(ApplyAll(Apply(t, CheckInPortDeletePort(port.ofport)),
                              UnbindFloodCalls(vlan, networkType, segmentationId, remaining, floodPorts, physPort, enableTunneling)),
                     UnbindOutCalls(vlan, port))
  {
    var first := CheckInPortDeletePort(port.ofport);
    var flood := UnbindFloodCalls(vlan, networkType, segmentationId, remaining, floodPorts, physPort, enableTunneling);
    var last := UnbindOutCalls(vlan, port);
    ApplyAllOne(t, first);
    ApplyAllAppend(t, [first], flood);
    ApplyAllAppend(t, [first] + flood, last);
  }

  /**
   * Unbinding call by call: the in_port delete; the flood rewrite, or the
   * flood delete followed by the network's reclaim; the LOCAL_OUT delete.
   */
  lemma UnbindSequence(t: FlowTable, vlan: int, networkType: NetworkType, segmentationId: nat, port: VifPort,
                       remaining: map<PortId, VifPort>, floodPorts: seq<int>, physPort: Option<int>, enableTunneling: bool)
    ensures var t1 := Apply(t, CheckInPortDeletePort(port.ofport));
      var t2 := if |remaining| > 0 then Apply(t1, LocalFloodUpdate(vlan, floodPorts, FloodUnicast(remaining)))
                else ApplyAll(Apply(t1, LocalFloodDelete(vlan)), ReclaimCalls(networkType, vlan, segmentationId, physPort, enableTunneling));
      AfterUnbind(t, vlan, networkType, segmentationId, port, remaining, floodPorts, physPort, enableTunneling)
        == if port.vifMac.Some? then Apply(t2, LocalOutDeletePort(vlan, port.vifMac.value)) else t2
  {
    UnbindUnfold(t, vlan, networkType, segmentationId, port, remaining, floodPorts, physPort, enableTunneling);
    var t1 := Apply(t, CheckInPortDeletePort(port.ofport));
    if |remaining| > 0 {
      ApplyAllOne(t1, LocalFloodUpdate(vlan, floodPorts, FloodUnicast(remaining)));
    } else {
      var reclaim := ReclaimCalls(networkType, vlan, segmentationId, physPort, enableTunneling);
      ApplyAllOne(t1, LocalFloodDelete(vlan));
      ApplyAllAppend(t1, [LocalFloodDelete(vlan)], reclaim);
    }
    var t2 := ApplyAll(t1, UnbindFloodCalls(vlan, networkType, segmentationId, remaining, floodPorts, physPort, enableTunneling));
    if port.vifMac.Some? {
      ApplyAllOne(t2, LocalOutDeletePort(vlan, port.vifMac.value));
    }
  }

  /** The LOCAL_OUT part of unbinding leaves every other table's entries as they were. */
  lemma UnbindOutKeeps(t2: FlowTable, vlan: int, port: VifPort, k: FlowKey)
    requires k.tableId != LOCAL_OUT
    ensures k in ApplyAll(t2, UnbindOutCalls(vlan, port)) <==> k in t2
    ensures k in t2 ==> ApplyAll(t2, UnbindOutCalls(vlan, port))[k] == t2[k]
  {
    ApplyAllFrame(t2, UnbindOutCalls(vlan, port));
  }

  /** Nothing after the in_port delete adds a CHECK_IN_PORT entry back. */
  lemma UnbindInPortGone(t1: FlowTable, ofport: int, flood: seq<BridgeCall>, last: seq<BridgeCall>)
    requires AllAgentCalls(flood) && AllAgentCalls(last)
    requires CHECK_IN_PORT !in InstallTablesOf(flood) && InstallTablesOf(last) == {}
    requires forall k :: k in t1 ==> !InPortEntry(k, ofport)
    ensures forall k :: k in ApplyAll(ApplyAll(t1, flood), last) ==> !InPortEntry(k, ofport)
  {
    ApplyAllFrame(t1, flood);
    ApplyAllFrame(ApplyAll(t1, flood), last);
  }

  /** What the LOCAL_FLOOD part of unbinding leaves in LOCAL_FLOOD. */
  lemma UnbindFloodSpec(t1: FlowTable, vlan: int, networkType: NetworkType, segmentationId: nat,
                        remaining: map<PortId, VifPort>, floodPorts: seq<int>, physPort: Option<int>, enableTunneling: bool)
    ensures var t2 := ApplyAll(t1, UnbindFloodCalls(vlan, networkType, segmentationId, remaining, floodPorts, physPort, enableTunneling));
      |remaining| > 0 ==>
        && LocalFloodKey(vlan, FloodUnicast(remaining)) in t2
        && OutputPorts(AppliedActions(t2[LocalFloodKey(vlan, FloodUnicast(remaining))])) == floodPorts
        && LocalFloodKey(vlan, !FloodUnicast(remaining)) !in t2
    ensures var t2 := ApplyAll(t1, UnbindFloodCalls(vlan, networkType, segmentationId, remaining, floodPorts, physPort, enableTunneling));
      |remaining| == 0 ==> LocalFloodKey(vlan, true) !in t2 && LocalFloodKey(vlan, false) !in t2
  {
    if |remaining| > 0 {
      ApplyAllOne(t1, LocalFloodUpdate(vlan, floodPorts, FloodUnicast(remaining)));
      LocalFloodUpdateSpec(t1, vlan, floodPorts, FloodUnicast(remaining));
    } else {
      var d := LocalFloodDelete(vlan);
      var reclaim := ReclaimCalls(networkType, vlan, segmentationId, physPort, enableTunneling);
      ApplyAllOne(t1, d);
      ApplyAllAppend(t1, [d], reclaim);
      LocalFloodDeleteRemovesBoth(t1, vlan);
      ApplyAllFrame(Apply(t1, d), reclaim);
    }
  }

  /** After the LOCAL_OUT part, the port's LOCAL_OUT entry is gone when its MAC is known. */
  lemma UnbindOutSpec(t2: FlowTable, vlan: int, port: VifPort)
    ensures port.vifMac.Some? ==> LocalOutEntry(vlan, port.ofport, port.vifMac.value).Key() !in ApplyAll(t2, UnbindOutCalls(vlan, port))
  {
    if port.vifMac.Some? {
      ApplyAllOne(t2, LocalOutDeletePort(vlan, port.vifMac.value));
      assert LocalOutEntry(vlan, port.ofport, port.vifMac.value).Key().flowMatch == LocalOutMatch(vlan, port.vifMac.value);
    }
  }

  // ------------------------------------------------ forwarding-database entries

  /**
   * The entry _add_fdb_flow installs (with install_tunnel_output): for the
   * flooding entry, the network's TUNNEL_FLOOD entry, which outputs to
   * every tunnel port of the flood set and continues to the next table;
   * for a MAC, a TUNNEL_OUT entry for that destination, which outputs to
   * the one tunnel port and stops.
   */
  function AddFdbEntry(kind: TunnelType, vlan: int, segmentationId: nat, entry: FdbEntry, ofport: int,
                       floodPorts: seq<int>): (e: FlowEntry)
    ensures entry == FLOODING_ENTRY ==>
      && e.Key() == TunnelFloodKey(kind, vlan)
      && OutputPorts(AppliedActions(e.instructions)) == floodPorts
      && GotoTarget(e.instructions) == Some(TunnelFlood(kind) + 1)
    ensures entry != FLOODING_ENTRY ==>
      && e.Key() == UnicastKey(vlan, entry.mac)
      && OutputPorts(AppliedActions(e.instructions)) == [ofport]
      && GotoTarget(e.instructions) == None
    ensures AppliedActions(e.instructions) == [SetField(TunnelId, Num(segmentationId))] + Outputs(if entry == FLOODING_ENTRY then floodPorts else [ofport])
    ensures WellFormedEntry(e)
  {
    if entry == FLOODING_ENTRY then
      var e := TunnelOutputEntry(TunnelFlood(kind), vlan, segmentationId, floodPorts, true, map[]);
      assert e.Key() == TunnelFloodKey(kind, vlan);
      e
    else
      UnicastEntryKey(vlan, segmentationId, entry.mac, ofport);
      TunnelOutputEntry(TUNNEL_OUT, vlan, segmentationId, [ofport], false, map[EthDst := Mac(entry.mac)])
  }

  /**
   * _del_fdb_flow's call (corrected table): the flooding entry rewrites the
   * TUNNEL_FLOOD entry for the remaining flood set, or deletes it when the
   * set is empty; a MAC deletes its TUNNEL_OUT entry.
   */
  function DelFdbCall(kind: TunnelType, vlan: int, entry: FdbEntry, segmentationId: nat, floodPorts: seq<int>): (r: BridgeCall)
    ensures AgentCall(r)
  {
    if entry == FLOODING_ENTRY then
      if |floodPorts| > 0 then InstallTunnelOutput(TunnelFlood(kind), vlan, segmentationId, floodPorts, true, map[])
      else DeleteTunnelOutput(TunnelFlood(kind), vlan, map[])
    else DeleteTunnelOutput(TUNNEL_OUT, vlan, map[EthDst := Mac(entry.mac)])
  }

  /** The key of a network's TUNNEL_FLOOD entry. */
  function TunnelFloodKey(kind: TunnelType, vlan: int): (k: FlowKey)
    ensures k.tableId == TunnelFlood(kind) && k.priority == 1
  {
    FlowKey(TunnelFlood(kind), 1, TunnelOutputMatch(vlan, map[]))
  }

  /** Removing a MAC's forwarding entry right after adding it gives back the table it started from. */
  lemma FdbUnicastRoundTrip(t: FlowTable, kind: TunnelType, vlan: int, segmentationId: nat, entry: FdbEntry, ofport: int)
    requires entry != FLOODING_ENTRY
    requires forall k :: k in t ==> !Selects(OneTable(TUNNEL_OUT), TunnelOutputMatch(vlan, map[EthDst := Mac(entry.mac)]), k)
    ensures Apply(Install(t, AddFdbEntry(kind, vlan, segmentationId, entry, ofport, [])),
                  DelFdbCall(kind, vlan, entry, segmentationId, [])) == t
  {
    TunnelOutputRoundTrip(t, TUNNEL_OUT, vlan, segmentationId, [ofport], false, map[EthDst := Mac(entry.mac)]);
  }

  /** The key of a network's TUNNEL_OUT entry for one MAC. */
  function UnicastKey(vlan: int, mac: string): (k: FlowKey)
    ensures k.tableId == TUNNEL_OUT && k.priority == 1
  {
    FlowKey(TUNNEL_OUT, 1, TunnelOutputMatch(vlan, map[EthDst := Mac(mac)]))
  }

  /**
   * One remote host's forwarding entries are in place: when the flooding
   * entry is among them, the network's TUNNEL_FLOOD entry outputs to
   * exactly the flood set; each MAC's TUNNEL_OUT entry outputs to the
   * host's tunnel port alone.
   */
  ghost predicate FdbInstalled(t: FlowTable, kind: TunnelType, vlan: int, entries: seq<FdbEntry>, ofport: int, flood: set<int>)
  {
    FloodInstalled(t, kind, vlan, entries, flood) && MacsInstalled(t, vlan, entries, ofport)
  }

  /** The flooding half of FdbInstalled. */
  ghost predicate FloodInstalled(t: FlowTable, kind: TunnelType, vlan: int, entries: seq<FdbEntry>, flood: set<int>)
  {
    FLOODING_ENTRY in entries ==>
      TunnelFloodKey(kind, vlan) in t && Elements(OutputPorts(AppliedActions(t[TunnelFloodKey(kind, vlan)]))) == flood
  }

  /** The unicast half of FdbInstalled. */
  ghost predicate MacsInstalled(t: FlowTable, vlan: int, entries: seq<FdbEntry>, ofport: int)
  {
    forall i :: 0 <= i < |entries| && entries[i] != FLOODING_ENTRY ==>
      UnicastKey(vlan, entries[i].mac) in t && OutputPorts(AppliedActions(t[UnicastKey(vlan, entries[i].mac)])) == [ofport]
  }

  /**
   * One remote host's forwarding entries are gone: when the flooding entry
   * is among them, the network's TUNNEL_FLOOD entry outputs to exactly the
   * remaining flood set, or is gone when that set is empty; no MAC has a
   * TUNNEL_OUT entry any more.
   */
  ghost predicate FdbRemoved(t: FlowTable, kind: TunnelType, vlan: int, entries: seq<FdbEntry>, flood: set<int>)
  {
    && (FLOODING_ENTRY in entries && flood == {} ==> TunnelFloodKey(kind, vlan) !in t)
    && (FLOODING_ENTRY in entries && flood != {} ==>
          TunnelFloodKey(kind, vlan) in t && Elements(OutputPorts(AppliedActions(t[TunnelFloodKey(kind, vlan)]))) == flood)
    && (forall i :: 0 <= i < |entries| && entries[i] != FLOODING_ENTRY ==> UnicastKey(vlan, entries[i].mac) !in t)
  }

  /** The entry _add_fdb_flow writes for a MAC has the MAC's TUNNEL_OUT key. */
  lemma UnicastEntryKey(vlan: int, segmentationId: nat, mac: string, ofport: int)
    ensures TunnelOutputEntry(TUNNEL_OUT, vlan, segmentationId, [ofport], false, map[EthDst := Mac(mac)]).Key() == UnicastKey(vlan, mac)
  {
    var e := TunnelOutputEntry(TUNNEL_OUT, vlan, segmentationId, [ofport], false, map[EthDst := Mac(mac)]);
    assert e.flowMatch == TunnelOutputMatch(vlan, map[EthDst := Mac(mac)]);
  }

  /** Adding one more forwarding entry of a host keeps the host's entries in place, with the flooding entry's port in the flood set. */
  lemma AddFdbStep(t: FlowTable, kind: TunnelType, vlan: int, segmentationId: nat, entries: seq<FdbEntry>, i: nat,
                   ofport: int, flood: set<int>, floodPorts: seq<int>)
    requires i < |entries|
    requires FdbInstalled(t, kind, vlan, entries[..i], ofport, flood)
    requires entries[i] == FLOODING_ENTRY ==> Elements(floodPorts) == flood + {ofport}
    ensures FdbInstalled(Install(t, AddFdbEntry(kind, vlan, segmentationId, entries[i], ofport, floodPorts)), kind, vlan,
                         entries[..i + 1], ofport, if entries[i] == FLOODING_ENTRY then flood + {ofport} else flood)
  {
    AddFloodStep(t, kind, vlan, segmentationId, entries, i, ofport, flood, floodPorts);
    AddMacStep(t, kind, vlan, segmentationId, entries, i, ofport, floodPorts);
  }

  lemma AddFloodStep(t: FlowTable, kind: TunnelType, vlan: int, segmentationId: nat, entries: seq<FdbEntry>, i: nat,
                     ofport: int, flood: set<int>, floodPorts: seq<int>)
    requires i < |entries|
    requires FloodInstalled(t, kind, vlan, entries[..i], flood)
    requires entries[i] == FLOODING_ENTRY ==> Elements(floodPorts) == flood + {ofport}
    ensures FloodInstalled(Install(t, AddFdbEntry(kind, vlan, segmentationId, entries[i], ofport, floodPorts)), kind, vlan,
                           entries[..i + 1], if entries[i] == FLOODING_ENTRY then flood + {ofport} else flood)
  {
    assert entries[..i + 1] == entries[..i] + [entries[i]];
    InstallSpec(t, AddFdbEntry(kind, vlan, segmentationId, entries[i], ofport, floodPorts));
  }

  lemma AddMacStep(t: FlowTable, kind: TunnelType, vlan: int, segmentationId: nat, entries: seq<FdbEntry>, i: nat,
                   ofport: int, floodPorts: seq<int>)
    requires i < |entries|
    requires MacsInstalled(t, vlan, entries[..i], ofport)
    ensures MacsInstalled(Install(t, AddFdbEntry(kind, vlan, segmentationId, entries[i], ofport, floodPorts)), vlan,
                          entries[..i + 1], ofport)
  {
    var e := AddFdbEntry(kind, vlan, segmentationId, entries[i], ofport, floodPorts);
    var t2 := Install(t, e);
    var done := entries[..i + 1];
    forall j | 0 <= j < |done| && done[j] != FLOODING_ENTRY
      ensures UnicastKey(vlan, done[j].mac) in t2
      ensures OutputPorts(AppliedActions(t2[UnicastKey(vlan, done[j].mac)])) == [ofport]
    {
      var k := UnicastKey(vlan, done[j].mac);
      if j < i {
        assert done[j] == entries[..i][j];
      }
      assert k == e.Key() ==> entries[i] != FLOODING_ENTRY;
      OutputKept(t, e, k, ofport);
    }
  }

  /** A key that outputs to one port keeps doing so across an install that either leaves it alone or writes the same output. */
  lemma OutputKept(t: FlowTable, e: FlowEntry, k: FlowKey, ofport: int)
    requires k == e.Key() || (k in t && OutputPorts(AppliedActions(t[k])) == [ofport])
    requires k == e.Key() ==> OutputPorts(AppliedActions(e.instructions)) == [ofport]
    ensures k in Install(t, e) && OutputPorts(AppliedActions(Install(t, e)[k])) == [ofport]
  {
    InstallSpec(t, e);
  }

  /** Removing one more forwarding entry of a host keeps the host's removed entries gone and the flood entry up to date. */
  lemma DelFdbStep(t: FlowTable, kind: TunnelType, vlan: int, segmentationId: nat, entries: seq<FdbEntry>, i: nat,
                   flood: set<int>, after: set<int>, floodPorts: seq<int>)
    requires i < |entries|
    requires FdbRemoved(t, kind, vlan, entries[..i], flood)
    requires entries[i] == FLOODING_ENTRY ==> Elements(floodPorts) == after && |floodPorts| == |after|
    requires entries[i] != FLOODING_ENTRY ==> after == flood && floodPorts == []
    ensures FdbRemoved(Apply(t, DelFdbCall(kind, vlan, entries[i], segmentationId, floodPorts)), kind, vlan, entries[..i + 1], after)
  {
    assert entries[..i + 1] == entries[..i] + [entries[i]];
    var m := TunnelOutputMatch(vlan, map[]);
    if entries[i] == FLOODING_ENTRY {
      if |floodPorts| > 0 {
        var e := TunnelOutputEntry(TunnelFlood(kind), vlan, segmentationId, floodPorts, true, map[]);
        assert e.Key() == TunnelFloodKey(kind, vlan);
        InstallSpec(t, e);
      } else {
        assert after == {};
        DeleteSpec(t, OneTable(TunnelFlood(kind)), m);
        assert Selects(OneTable(TunnelFlood(kind)), m, TunnelFloodKey(kind, vlan));
      }
    } else {
      var um := TunnelOutputMatch(vlan, map[EthDst := Mac(entries[i].mac)]);
      DeleteSpec(t, OneTable(TUNNEL_OUT), um);
      assert Selects(OneTable(TUNNEL_OUT), um, UnicastKey(vlan, entries[i].mac));
    }
  }
}
