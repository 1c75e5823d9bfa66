# ofagent integration bridge and L2 agent, modelled in Dafny

This project models the core of the Neutron OpenFlow agent (`ofagent`): the
L2 agent that wires virtual interfaces (VIFs) of a hypervisor into Neutron
networks by programming the OpenFlow pipeline of the integration bridge.

* **Integration bridge (`flows.dfy`, `openflow.dfy`, `flows_lemmas.dfy`).**
  The switch's flow table is a map from (table, priority, match) to
  instructions. `IntegrationBridge` is a class whose methods change that map
  as `OFAgentIntegrationBridge` does (its flat-network reclaim is the
  evidently intended one; see Findings): the default pipeline, tunnel output
  entries, tenant ingress for tunnel, VLAN and flat networks, the
  CHECK_IN_PORT entries of local and tunnel ports, local flooding and local
  unicast output. Every bridge operation is also a `BridgeCall` value, and
  `Apply` gives its effect on a table. The lemmas prove that each reclaim or
  delete undoes its provision or add, that setting up the default table
  leaves exactly the default pipeline whatever was installed before, and that
  every operation keeps gotos pointing forward.
* **Metadata (`metadata.dfy`).** The tenant metadata value/mask pair, on
  64-bit vectors.
* **Agent state (`agent_state.dfy`, `agent.dfy`).** `OfaAgent` is a class
  with the agent's fields:
  * the pool of free local VLAN tags;
  * the map from network to `LocalVlanMapping`, holding the tag, the VIF
    ports and the flood set of tunnel ofports;
  * the per-tunnel-type registry from remote address to ofport;
  * the pending updated ports and the tunnel port names deleted so far.

  Its methods are the agent's operations:
  * provisioning and reclaiming a local VLAN;
  * binding and unbinding ports;
  * tunnel port setup and cleanup;
  * the l2population `fdb_add` and `fdb_remove` handlers;
  * the RPC callbacks;
  * port scanning, device treatment and one iteration of the monitor loop.

  Each method's new state and flow table is tied to the pure functions and
  call sequences in `agent_flows.dfy` and `port_scan.dfy`. Three invariants
  are kept throughout:
  * every tag is either free or used by exactly one network;
  * fdb_add only grows the flood sets and registries, and fdb_remove only
    shrinks them;
  * no pending port update is lost.
* **Configuration and names (`agent_config.dfy`, `tunnel_names.dfy`).**
  Building the agent's configuration map and checking it, and the tunnel
  port name `<type>-<address as 8 hex digits>` with its round trip through
  dotted-quad parsing.
* **Findings (`findings.dfy`).** Defects in the code as written, each shown
  by a lemma next to the corrected behaviour that the rest of the model uses.

Table ids of `tables.py` are constants of the model:
* CHECK_IN_PORT 0;
* TUNNEL_IN 1 (gre) and 2 (vxlan);
* PHYS_IN 3;
* LOCAL_IN 4;
* TUNNEL_OUT 7;
* LOCAL_OUT 8;
* PHYS_OUT 9;
* TUNNEL_FLOOD 10 (gre) and 11 (vxlan);
* PHYS_FLOOD 12;
* LOCAL_FLOOD 13.

The local VLAN tags are MIN_VLAN_TAG = 1 up to MAX_VLAN_TAG = 4094, exclusive,
as in `range(MIN_VLAN_TAG, MAX_VLAN_TAG)`.

Observations of the outside world are parameters of the methods:
* the RPC replies (device details, update_device_down failures);
* the ovsdb answers (ofport of an added tunnel port, VIF port sets, port
  tags);
* the polling manager.

## Model

| member | source | states |
|---|---|---|
| Constants.ParseTunnelType | neutron/plugins/ofagent/agent/ofa_neutron_agent.py:369-381 | a tunnel type name is accepted exactly when it is `gre` or `vxlan`, and the accepted type prints back as the same name |
| Metadata.MkMetadata | neutron/plugins/ofagent/agent/metadata.py:19-24 | the returned mask covers the flags and the network bits, and the value carries the flags and the network id |
| Metadata.DefaultFlags | neutron/plugins/ofagent/agent/metadata.py:23-24 | with no flags the pair is (network id, NETWORK_MASK) |
| Metadata.MaskIndependentOfNetwork | neutron/plugins/ofagent/agent/metadata.py:23-24 | the mask depends on the flags only, never on the network id |
| Metadata.LocalFlagSet | neutron/plugins/ofagent/agent/metadata.py:20-24 | with the LOCAL flag, both value and mask have the LOCAL bit set |
| Metadata.SmallNetworkMatchesItself | neutron/plugins/ofagent/agent/metadata.py:19-24 | a network id that fits NETWORK_MASK survives masking: value & mask == value |
| AgentConfig.EffectiveTunnelTypes | neutron/plugins/ofagent/agent/ofa_neutron_agent.py:1210-1211 | enable_tunneling with no tunnel types yields a non-empty list (GRE); configured tunnel types are kept as given |
| AgentConfig.CheckTunnelTypes | neutron/plugins/ofagent/agent/ofa_neutron_agent.py:1213-1220 | no error exactly when every type is a tunnel type and, if there is one, local_ip is set; an invalid-type error names the first bad type |
| AgentConfig.CreateAgentConfigMap | neutron/plugins/ofagent/agent/ofa_neutron_agent.py:1185-1222 | a bad bridge mapping is reported as such; the map is built exactly when the mappings parse, the types are valid and local_ip is present where needed; its fields are the configured ones |
| TunnelNames.Decimal | neutron/plugins/ofagent/agent/ofa_neutron_agent.py:309-315 | the decimal rendering of a number is non-empty and made of digits |
| TunnelNames.DecimalRoundTrip | neutron/plugins/ofagent/agent/ofa_neutron_agent.py:309-315 | parsing the decimal rendering gives back the number |
| TunnelNames.ParseOctet | neutron/plugins/ofagent/agent/ofa_neutron_agent.py:309-315 | an accepted octet is at most 255 |
| TunnelNames.OctetRoundTrip | neutron/plugins/ofagent/agent/ofa_neutron_agent.py:309-315 | every octet 0..255 rendered in decimal parses back to itself |
| TunnelNames.ParseIpv4 | neutron/plugins/ofagent/agent/ofa_neutron_agent.py:309-315 | an accepted canonical dotted quad denotes a 32-bit address |
| TunnelNames.Ipv4RoundTrip | neutron/plugins/ofagent/agent/ofa_neutron_agent.py:309-315 | formatting four octets and parsing the text gives back the same 32-bit address |
| TunnelNames.HexDigits | neutron/plugins/ofagent/agent/ofa_neutron_agent.py:309-315 | the hex rendering has exactly the requested number of hex digits |
| TunnelNames.HexRoundTrip | neutron/plugins/ofagent/agent/ofa_neutron_agent.py:309-315 | reading the fixed-width hex rendering back gives the number whenever it fits |
| TunnelNames.TunnelPortName | neutron/plugins/ofagent/agent/ofa_neutron_agent.py:309-315 | on canonical dotted quads: a name exists exactly when the address parses, and it is the tunnel type, a dash and the address as eight hex digits |
| TunnelNames.PortNameRoundTrip | neutron/plugins/ofagent/agent/ofa_neutron_agent.py:309-315 | the address can be read back from the port name, and the name fits the 15-character interface name limit |
| TunnelNames.PortNameInjective | neutron/plugins/ofagent/agent/ofa_neutron_agent.py:309-315 | two remote addresses that give the same port name are the same address |
| OpenFlow.GotoTargetIsForward | neutron/plugins/ofagent/agent/flows.py:35-45 | in a well-formed entry a goto always leads to a later table |
| OpenFlow.InstallSpec | neutron/plugins/ofagent/agent/flows.py:192-196 | sending a flow-mod installs (or replaces) exactly the entry with that table, priority and match, and leaves every other entry as it was |
| OpenFlow.DeleteSpec | neutron/plugins/ofagent/agent/flows.py:311 | a non-strict delete removes exactly the entries whose table is selected and whose match contains the given fields, and keeps the others unchanged |
| OpenFlow.DeleteStrictSpec | neutron/plugins/ofagent/agent/flows.py:335-336 | a strict delete removes exactly the entry with that table, priority and match, and keeps all others unchanged |
| OpenFlow.DeleteEverything | neutron/plugins/ofagent/agent/flows.py:159 | a delete with no table and no match empties the switch |
| OpenFlow.OutputPortsAppend | neutron/plugins/ofagent/agent/flows.py:183-184 | output ports of concatenated action lists are concatenated |
| Flows.VlanVidOfVlanId | neutron/plugins/ofagent/agent/flows.py:232 | ORing OFPVID_PRESENT into a VLAN id below 4096 adds 0x1000, and the id is recovered modulo 0x1000 |
| Flows.Outputs | neutron/plugins/ofagent/agent/flows.py:183-184 | one output action per port, in order, naming exactly the given ports |
| Flows.DefaultTableContents | neutron/plugins/ofagent/agent/flows.py:158-175 | the default pipeline has exactly one priority-0 entry per table: drop in CHECK_IN_PORT, TUNNEL_IN and LOCAL_FLOOD; PHYS_IN goes to TUNNEL_OUT; the others go to the next table; every entry is well formed |
| Flows.DefaultSetupIsDefaultTable | neutron/plugins/ofagent/agent/flows.py:158-175 | the install sequence of setup_default_table, started from an empty switch, builds exactly that default table |
| Flows.TunnelOutputEntry | neutron/plugins/ofagent/agent/flows.py:177-196 | the entry matches the metadata plus the extra fields, sets tunnel_id then outputs to the ports in order, and goes to the next table exactly when goto_next is set |
| Flows.TenantTunnelEntry | neutron/plugins/ofagent/agent/flows.py:204-217 | the TUNNEL_IN entry matches the tunnel id, writes the tenant metadata and goes to PHYS_OUT (never to TUNNEL_OUT or a tunnel-flood table) |
| Flows.PhysnetInEntry | neutron/plugins/ofagent/agent/flows.py:223-248 | the CHECK_IN_PORT entry matches the physical port, also matches the VLAN id exactly for a VLAN network (popping it), writes the tenant metadata and goes to PHYS_IN |
| Flows.PhysnetFloodOutputs | neutron/plugins/ofagent/agent/flows.py:249-267 | the PHYS_FLOOD actions output to the physical port only |
| Flows.PhysnetFloodEntry | neutron/plugins/ofagent/agent/flows.py:249-267 | the PHYS_FLOOD entry matches the tenant, outputs to the physical port and goes to the next table |
| Flows.CheckInPortTunnelEntry | neutron/plugins/ofagent/agent/flows.py:281-293 | a tunnel port's CHECK_IN_PORT entry matches the port and goes to that tunnel type's TUNNEL_IN table |
| Flows.CheckInPortLocalEntry | neutron/plugins/ofagent/agent/flows.py:295-308 | a local port's CHECK_IN_PORT entry matches the port, writes the tenant metadata and goes to LOCAL_IN |
| Flows.LocalFloodEntry | neutron/plugins/ofagent/agent/flows.py:313-334 | the LOCAL_FLOOD entry matches all traffic of the tenant (unicast flooding) or only multicast, and outputs to exactly the given ports |
| Flows.LocalOutEntry | neutron/plugins/ofagent/agent/flows.py:341-353 | the LOCAL_OUT entry matches tenant and destination MAC and outputs to the port |
| Flows.ApplyWellFormed | neutron/plugins/ofagent/agent/flows.py:35-45 | every bridge operation keeps the pipeline well formed (gotos only move forward) |
| Flows.ApplyAllWellFormed | neutron/plugins/ofagent/agent/flows.py:35-45 | any sequence of bridge operations keeps the pipeline well formed |
| Flows.IntegrationBridge.constructor | neutron/plugins/ofagent/agent/flows.py:155-156 | a new bridge has no flows |
| Flows.IntegrationBridge.WithDefaults | neutron/plugins/ofagent/agent/flows.py:158-175 | a bridge whose flows are the default pipeline |
| Flows.IntegrationBridge.SendFlowMod | neutron/plugins/ofagent/agent/flows.py:192-196 | the flow table becomes the old one with the entry installed |
| Flows.IntegrationBridge.DeleteFlows | neutron/plugins/ofagent/agent/flows.py:159 | the flow table becomes the old one with the selected entries deleted |
| Flows.IntegrationBridge.DeleteFlowsStrict | neutron/plugins/ofagent/agent/flows.py:335-336 | the flow table becomes the old one without the exact entry |
| Flows.IntegrationBridge.InstallDefaultDrop | neutron/plugins/ofagent/agent/flows.py:161 | installs the table's priority-0 drop entry |
| Flows.IntegrationBridge.InstallDefaultGoto | neutron/plugins/ofagent/agent/flows.py:165 | installs the table's priority-0 goto to a later table |
| Flows.IntegrationBridge.InstallDefaultGotoNext | neutron/plugins/ofagent/agent/flows.py:166-171 | installs the table's priority-0 goto to the next table |
| Flows.IntegrationBridge.InstallTunnelDefaultEntries | neutron/plugins/ofagent/agent/flows.py:163-164 | installs one default entry per tunnel type (drop in TUNNEL_IN, goto-next in TUNNEL_FLOOD) |
| Flows.IntegrationBridge.SetupDefaultTable | neutron/plugins/ofagent/agent/flows.py:158-175 | whatever was installed before, the table afterwards is the default pipeline |
| Flows.IntegrationBridge.InstallTunnelOutput | neutron/plugins/ofagent/agent/flows.py:177-196 | the table gains the tunnel output entry, nothing else changes |
| Flows.IntegrationBridge.DeleteTunnelOutput | neutron/plugins/ofagent/agent/flows.py:198-202 | non-strict delete of that table's entries for the metadata and extra fields |
| Flows.IntegrationBridge.ProvisionTenantTunnel | neutron/plugins/ofagent/agent/flows.py:204-217 | the table gains the tenant's TUNNEL_IN entry |
| Flows.IntegrationBridge.ReclaimTenantTunnel | neutron/plugins/ofagent/agent/flows.py:219-221 | removes the tenant's TUNNEL_IN entries for the tunnel id |
| Flows.IntegrationBridge.ProvisionTenantPhysnet | neutron/plugins/ofagent/agent/flows.py:223-267 | the table gains the CHECK_IN_PORT entry and the PHYS_FLOOD entry of the network |
| Flows.IntegrationBridge.ReclaimTenantPhysnet | neutron/plugins/ofagent/agent/flows.py:269-279 | removes the network's ingress entry (VLAN: by port and VLAN id; flat: exactly the untagged entry) and its PHYS_FLOOD entries |
| Flows.IntegrationBridge.CheckInPortAddTunnelPort | neutron/plugins/ofagent/agent/flows.py:281-293 | the table gains the tunnel port's CHECK_IN_PORT entry |
| Flows.IntegrationBridge.CheckInPortAddLocalPort | neutron/plugins/ofagent/agent/flows.py:295-308 | the table gains the local port's CHECK_IN_PORT entry |
| Flows.IntegrationBridge.CheckInPortDeletePort | neutron/plugins/ofagent/agent/flows.py:310-311 | removes every CHECK_IN_PORT entry matching the port |
| Flows.IntegrationBridge.LocalFloodUpdate | neutron/plugins/ofagent/agent/flows.py:313-336 | installs the tenant's flood entry of the chosen kind and strictly deletes the other kind |
| Flows.IntegrationBridge.LocalFloodDelete | neutron/plugins/ofagent/agent/flows.py:338-339 | removes the tenant's LOCAL_FLOOD entries |
| Flows.IntegrationBridge.LocalOutAddPort | neutron/plugins/ofagent/agent/flows.py:341-353 | the table gains the LOCAL_OUT entry for the tenant and MAC |
| Flows.IntegrationBridge.LocalOutDeletePort | neutron/plugins/ofagent/agent/flows.py:355-357 | removes the LOCAL_OUT entries for the tenant and MAC |
| FlowProperties.InstallThenDelete | neutron/plugins/ofagent/agent/flows.py:311 | installing an entry that a later delete selects, into a table where that delete selects nothing, is undone by the delete |
| FlowProperties.InstallThenDeleteStrict | neutron/plugins/ofagent/agent/flows.py:335-336 | a strict delete undoes the install of a new entry |
| FlowProperties.DeleteInstallCommute | neutron/plugins/ofagent/agent/flows.py:313-336 | a delete that does not select an entry commutes with installing it |
| FlowProperties.DeleteStrictInstallCommute | neutron/plugins/ofagent/agent/flows.py:313-336 | a strict delete of another key commutes with an install |
| FlowProperties.TunnelOutputRoundTrip | neutron/plugins/ofagent/agent/flows.py:177-202 | delete_tunnel_output undoes install_tunnel_output on a table that had no such entries |
| FlowProperties.TenantTunnelRoundTrip | neutron/plugins/ofagent/agent/flows.py:204-221 | reclaim_tenant_tunnel undoes provision_tenant_tunnel |
| FlowProperties.TenantPhysnetRoundTrip | neutron/plugins/ofagent/agent/flows.py:223-279 | reclaim_tenant_physnet undoes provision_tenant_physnet, for VLAN and for flat networks |
| FlowProperties.LocalOutRoundTrip | neutron/plugins/ofagent/agent/flows.py:341-357 | local_out_delete_port undoes local_out_add_port |
| FlowProperties.LocalFloodKey | neutron/plugins/ofagent/agent/flows.py:313-334 | the flood entry is keyed by LOCAL_FLOOD, priority 1 and the tenant; the multicast kind also matches the destination MAC |
| FlowProperties.LocalFloodUpdateSpec | neutron/plugins/ofagent/agent/flows.py:313-336 | after an update the tenant has exactly one flood entry, of the requested kind, outputting to the given ports; everything else is unchanged |
| FlowProperties.LocalFloodDeleteRemovesBoth | neutron/plugins/ofagent/agent/flows.py:338-339 | after a delete neither flood entry of the tenant is left; other tables keep all their entries |
| FlowProperties.CheckInPortDeleteSpec | neutron/plugins/ofagent/agent/flows.py:310-311 | exactly the CHECK_IN_PORT entries for the port are removed |
| FlowProperties.CheckInPortLocalRoundTrip | neutron/plugins/ofagent/agent/flows.py:295-311 | a local port's ingress entry is gone after delete_port |
| FlowProperties.CheckInPortTunnelInstalled | neutron/plugins/ofagent/agent/flows.py:281-293 | after adding a tunnel port, its CHECK_IN_PORT entry goes to the tunnel type's TUNNEL_IN table, all else unchanged |
| FlowProperties.CheckInPortTunnelRoundTrip | neutron/plugins/ofagent/agent/flows.py:281-311 | a tunnel port's ingress entry is gone after delete_port |
| AgentState.NewLocalVlanMapping | neutron/plugins/ofagent/agent/ofa_neutron_agent.py:60-72 | a new mapping carries the tag and network type and starts with no VIF ports and no tunnel ports |
| AgentState.PortEqIsEquivalence | neutron/plugins/ofagent/agent/ofa_neutron_agent.py:94-106 | Port equality is reflexive, symmetric and transitive, implies equal ids, is false against None (where `!=` is true), and tells admin states apart |
| AgentState.TagPool | neutron/plugins/ofagent/agent/ofa_neutron_agent.py:240-241 | the initial pool is exactly the tags MIN_VLAN_TAG..MAX_VLAN_TAG-1, and with an empty map every tag is accounted for |
| AgentState.PoolSize | neutron/plugins/ofagent/agent/ofa_neutron_agent.py:240-241 | with every tag either free or used once, free plus used is 4093, and the pool is empty exactly when 4093 networks are mapped |
| AgentState.ProvisionConserves | neutron/plugins/ofagent/agent/ofa_neutron_agent.py:482-491 | taking a free tag for a new network keeps every tag in exactly one place |
| AgentState.ReclaimConserves | neutron/plugins/ofagent/agent/ofa_neutron_agent.py:535-572 | returning a removed network's tag to the pool keeps every tag in exactly one place |
| AgentState.UpdateConserves | neutron/plugins/ofagent/agent/ofa_neutron_agent.py:585-588 | changing a mapping without changing its tag keeps the tag accounting |
| AgentState.RegistryWithout | neutron/plugins/ofagent/agent/ofa_neutron_agent.py:838-851 | removing ofports from a tunnel registry keeps exactly the addresses mapped to other ofports, with their values |
| AgentState.SetupCleanupRoundTrip | neutron/plugins/ofagent/agent/ofa_neutron_agent.py:817-851 | cleaning up the ofport just registered for an address removes that address again |
| AgentState.WithFloodSpec | neutron/plugins/ofagent/agent/ofa_neutron_agent.py:432-463 | replacing one network's flood set changes nothing else; growing or shrinking it grows or shrinks the flood sets; replacements compose |
| AgentState.FloodSetsKeepTags | neutron/plugins/ofagent/agent/ofa_neutron_agent.py:389-430 | changing flood sets never disturbs the tag accounting |
| AgentState.GrowTrans | neutron/plugins/ofagent/agent/ofa_neutron_agent.py:389-412 | flood sets and registries that grow twice have grown |
| AgentState.ShrinkTrans | neutron/plugins/ofagent/agent/ofa_neutron_agent.py:414-430 | flood sets and registries that shrink twice have shrunk |
| Iteration.Choose | neutron/plugins/ofagent/agent/ofa_neutron_agent.py:496 | a picked element lies in the set |
| Iteration.IterationOrder | neutron/plugins/ofagent/agent/ofa_neutron_agent.py:432-443 | a sequence listing each ofport of a set exactly once (the order of set iteration is arbitrary) |
| Iteration.VifOfports | neutron/plugins/ofagent/agent/ofa_neutron_agent.py:595-596 | the list of VIF ofports has the network's ports' ofports and one element per port |
| AgentFlows.ApplyFrame | neutron/plugins/ofagent/agent/flows.py:204-357 | a bridge operation changes only the tables it installs into or deletes from |
| AgentFlows.ApplyAllFrame | neutron/plugins/ofagent/agent/flows.py:204-357 | a sequence of operations changes only the tables they touch |
| AgentFlows.PhysPort | neutron/plugins/ofagent/agent/ofa_neutron_agent.py:493-495 | a physical port is known exactly when the network names a mapped physical network |
| AgentFlows.ProvisionCalls | neutron/plugins/ofagent/agent/ofa_neutron_agent.py:482-533 | provisioning issues a bridge call exactly for a tunnel network when tunneling is on, or a VLAN/flat network whose physical network is mapped |
| AgentFlows.ReclaimCalls | neutron/plugins/ofagent/agent/ofa_neutron_agent.py:535-572 | reclaiming issues at most one call, which only deletes |
| AgentFlows.ProvisionReclaimRoundTrip | neutron/plugins/ofagent/agent/ofa_neutron_agent.py:482-572 | reclaiming a network's flows undoes provisioning them |
| AgentFlows.BindCalls | neutron/plugins/ofagent/agent/ofa_neutron_agent.py:590-600 | the bind sequence consists of agent bridge calls only |
| AgentFlows.BindSpec | neutron/plugins/ofagent/agent/ofa_neutron_agent.py:590-600 | after binding: the port's ingress entry is in place; the tenant has one flood entry, of the right kind, to exactly the given ports; the LOCAL_OUT entry exists when the MAC is known and LOCAL_OUT is untouched otherwise |
| AgentFlows.UnbindCalls | neutron/plugins/ofagent/agent/ofa_neutron_agent.py:602-626 | the unbind sequence consists of agent bridge calls only |
| AgentFlows.UnbindSpec | neutron/plugins/ofagent/agent/ofa_neutron_agent.py:602-626 | after unbinding: no ingress entry for the port, no LOCAL_OUT entry for its MAC; the flood entry outputs to exactly the remaining ports, or, as corrected in Finding 8, is gone with the last port |
| AgentFlows.UnbindFloodSpec | neutron/plugins/ofagent/agent/ofa_neutron_agent.py:619-626 | the flood part of unbinding rewrites the flood entry to the remaining ports, or, as corrected in Finding 8, deletes both kinds with the last port |
| AgentFlows.AddFdbEntry | neutron/plugins/ofagent/agent/ofa_neutron_agent.py:432-443 | a flooding entry writes the tunnel-flood entry to all flood ports with goto-next; any other entry writes a unicast TUNNEL_OUT entry to the one ofport |
| AgentFlows.DelFdbCall | neutron/plugins/ofagent/agent/ofa_neutron_agent.py:445-463 | the delete side of an FDB entry is an agent bridge call |
| AgentFlows.FdbUnicastRoundTrip | neutron/plugins/ofagent/agent/ofa_neutron_agent.py:432-463 | deleting a unicast FDB entry undoes adding it |
| AgentFlows.AddFdbStep | neutron/plugins/ofagent/agent/ofa_neutron_agent.py:389-412 | after one more entry of a host is installed, the flood entry and the unicast entries cover all entries so far |
| AgentFlows.DelFdbStep | neutron/plugins/ofagent/agent/ofa_neutron_agent.py:414-463 | after one more entry of a host is removed, the flood entry matches the shrunk flood set and the unicast entries are gone |
| PortScan.PortDiffSpec | neutron/plugins/ofagent/agent/ofa_neutron_agent.py:737-760 | applying the diff to the registered ports gives the current ports; added and removed are disjoint; added is reported exactly when the port sets differ |
| PortScan.UpdateAncillaryPorts | neutron/plugins/ofagent/agent/ofa_neutron_agent.py:786-797 | nothing is reported exactly when the ancillary bridges' ports equal the registered ones; otherwise current, added and removed are the union, the new and the vanished ports |
| PortScan.ScanResultSpec | neutron/plugins/ofagent/agent/ofa_neutron_agent.py:737-760 | the updated ports are the notified and tag-lost ports still present; they are disjoint from the removed ports; from an empty registry everything present is added |
| PortScan.ProcessBindings | neutron/plugins/ofagent/agent/ofa_neutron_agent.py:853-941 | after one pass, bindings of ports not removed are kept, added ports are bound as their details say, and removed ports bound once are bound nowhere |
| PortScan.ResyncRewiresAll | neutron/plugins/ofagent/agent/ofa_neutron_agent.py:1071-1099 | after a resync every current port is treated as added and nothing is removed |
| PortScan.UnboundFromStep | neutron/plugins/ofagent/agent/ofa_neutron_agent.py:925-941 | unbinding a VIF from its network is a removal step |
| Agent.ScanRegistry | neutron/plugins/ofagent/agent/ofa_neutron_agent.py:838-851 | the loop over the registry leaves exactly the entries for other ofports and collects the addresses that pointed to this one |
| Agent.TunnelPortInUse | neutron/plugins/ofagent/agent/ofa_neutron_agent.py:842-844 | the port is in use exactly when some network still floods to it |
| Agent.ReleaseFromRegistry | neutron/plugins/ofagent/agent/ofa_neutron_agent.py:563-570 | a reclaimed tunnel network's flood ports that no other network uses are dropped from the registry, and their port names are deleted |
| Agent.ReclaimRegistrySpec | neutron/plugins/ofagent/agent/ofa_neutron_agent.py:563-570 | an address leaves the registry exactly when cleanup is on and its port was the network's and no other network uses it; other kinds are untouched |
| Agent.InstallFdbFlow | neutron/plugins/ofagent/agent/ofa_neutron_agent.py:432-443 | the flow installed is the FDB entry's; a flooding entry lists each flood port once |
| Agent.RewriteFloodEntry | neutron/plugins/ofagent/agent/ofa_neutron_agent.py:445-457 | the flood entry is rewritten to list each remaining flood port once |
| Agent.InstallHostEntries | neutron/plugins/ofagent/agent/ofa_neutron_agent.py:404-412 | the flood set gains the host's port exactly when the host announced flooding, and every entry's flow is in place |
| Agent.CleanupShrinks | neutron/plugins/ofagent/agent/ofa_neutron_agent.py:838-851 | dropping an unreferenced port from a registry only shrinks the registries |
| Agent.OfaAgent.constructor | neutron/plugins/ofagent/agent/ofa_neutron_agent.py:212-288 | a new agent has the default pipeline, the full tag pool, empty maps and registries, and tunneling on exactly when tunnel types are configured |
| Agent.OfaAgent.ProvisionLocalVlan | neutron/plugins/ofagent/agent/ofa_neutron_agent.py:482-533 | no tag is taken exactly when the pool is empty; otherwise a free tag is taken from the pool, the network is mapped to it and the provisioning flows are installed |
| Agent.OfaAgent.ReclaimLocalVlan | neutron/plugins/ofagent/agent/ofa_neutron_agent.py:535-572 | the network's tag goes back to the pool, its mapping and flows are removed and its unused tunnel ports are released; an unknown network changes nothing; a VLAN or flat network whose physical network has no bridge gets no flow change, as provisioning installed none |
| Agent.OfaAgent.ReleaseTunnelPorts | neutron/plugins/ofagent/agent/ofa_neutron_agent.py:563-570 | the registries and deleted names are those of releasing the flood ports no other network uses |
| Agent.OfaAgent.SetupTunnelPort | neutron/plugins/ofagent/agent/ofa_neutron_agent.py:817-836 | a failed port add changes nothing and returns 0; otherwise the address is registered and the tunnel ingress entry is installed |
| Agent.OfaAgent.CleanupTunnelPort | neutron/plugins/ofagent/agent/ofa_neutron_agent.py:838-851 | an unreferenced port is removed from the registry and its names are deleted; a referenced one is kept; registries only shrink |
| Agent.OfaAgent.GetNetUuid | neutron/plugins/ofagent/agent/ofa_neutron_agent.py:345-348 | a network is returned exactly when one holds the VIF, and it does hold it |
| Agent.OfaAgent.NetworkDelete | neutron/plugins/ofagent/agent/ofa_neutron_agent.py:350-358 | a known network is reclaimed: its mapping is removed, its tag goes back to the pool, its flows are deleted and its unused tunnel ports released; an unknown network changes nothing |
| Agent.OfaAgent.PortUpdate | neutron/plugins/ofagent/agent/ofa_neutron_agent.py:360-367 | the port joins the updated set; nothing else changes |
| Agent.OfaAgent.TunnelUpdate | neutron/plugins/ofagent/agent/ofa_neutron_agent.py:369-387 | a tunnel port is set up exactly when tunneling is on, the type is configured, the address is remote, a port name exists, l2pop is off and the add succeeds |
| Agent.OfaAgent.BindPort | neutron/plugins/ofagent/agent/ofa_neutron_agent.py:589-600 | the VIF joins its network and the bind flows for the new port set are installed |
| Agent.OfaAgent.ProvisionAndBind | neutron/plugins/ofagent/agent/ofa_neutron_agent.py:585-600 | binding on a new network succeeds exactly when a tag is free; it then provisions and binds |
| Agent.OfaAgent.PortBound | neutron/plugins/ofagent/agent/ofa_neutron_agent.py:574-600 | binding succeeds exactly when the network is known or a tag is free; a known network only gains the port, a new one is provisioned first |
| Agent.OfaAgent.UnbindPortOfShared | neutron/plugins/ofagent/agent/ofa_neutron_agent.py:602-626 | the VIF leaves its network, and the flood entry is rewritten to the remaining ports |
| Agent.OfaAgent.UnbindLastPort | neutron/plugins/ofagent/agent/ofa_neutron_agent.py:602-626 | unbinding the last VIF reclaims the network: tag returned, mapping, flows and unused tunnel ports removed, and (as corrected in Finding 8) its LOCAL_FLOOD entry deleted |
| Agent.OfaAgent.UnbindPort | neutron/plugins/ofagent/agent/ofa_neutron_agent.py:602-626 | the combined contract of the two unbind cases, including the LOCAL_FLOOD deletion of Finding 8 for the last VIF |
| Agent.OfaAgent.PortUnbound | neutron/plugins/ofagent/agent/ofa_neutron_agent.py:602-626 | unbinding happens exactly when the VIF is bound (in the given network, or anywhere when none is given); otherwise nothing changes |
| Agent.OfaAgent.AddFdbFlow | neutron/plugins/ofagent/agent/ofa_neutron_agent.py:432-443 | the FDB entry's flow is installed and a flooding entry adds the port to the flood set |
| Agent.OfaAgent.DelFdbFlow | neutron/plugins/ofagent/agent/ofa_neutron_agent.py:445-463 | removal succeeds exactly when the entry is unicast or the port is in the flood set |
| Agent.OfaAgent.RemoveFloodPort | neutron/plugins/ofagent/agent/ofa_neutron_agent.py:445-457 | the port leaves the flood set and the flood entry is rewritten or deleted |
| Agent.OfaAgent.DropFloodPort | neutron/plugins/ofagent/agent/ofa_neutron_agent.py:445-463 | the flooding removal drops the port from the flood set and the TUNNEL_FLOOD entry |
| Agent.OfaAgent.ResolveTunnelPort | neutron/plugins/ofagent/agent/ofa_neutron_agent.py:396-402 | a registered address gives its port; an unregistered one is set up |
| Agent.OfaAgent.AddHostEntries | neutron/plugins/ofagent/agent/ofa_neutron_agent.py:404-412 | every entry of the host is installed |
| Agent.OfaAgent.FdbAddHost | neutron/plugins/ofagent/agent/ofa_neutron_agent.py:396-412 | the host's port is resolved and its entries installed |
| Agent.OfaAgent.RemoveHostEntry | neutron/plugins/ofagent/agent/ofa_neutron_agent.py:420-430 | one more entry of the host is removed |
| Agent.OfaAgent.FdbRemoveHost | neutron/plugins/ofagent/agent/ofa_neutron_agent.py:420-430 | a host without a registered port is skipped; otherwise its entries are removed |
| Agent.OfaAgent.RemoveHostEntries | neutron/plugins/ofagent/agent/ofa_neutron_agent.py:427-430 | entries are removed in order until a flooding entry whose port is not in the flood set |
| Agent.OfaAgent.AddNetworkHost | neutron/plugins/ofagent/agent/ofa_neutron_agent.py:394-412 | one host's entries are added |
| Agent.OfaAgent.AddNetworkHosts | neutron/plugins/ofagent/agent/ofa_neutron_agent.py:394-412 | every remote host's entries are added |
| Agent.OfaAgent.FdbAddNetwork | neutron/plugins/ofagent/agent/ofa_neutron_agent.py:389-412 | the network is processed exactly when it is a tunnel network or has no remote hosts |
| Agent.OfaAgent.RemoveNetworkHost | neutron/plugins/ofagent/agent/ofa_neutron_agent.py:414-430 | one host's entries are removed |
| Agent.OfaAgent.RemoveNetworkHosts | neutron/plugins/ofagent/agent/ofa_neutron_agent.py:414-430 | every remote host's entries are removed |
| Agent.OfaAgent.FdbRemoveNetwork | neutron/plugins/ofagent/agent/ofa_neutron_agent.py:414-430 | the network's remote hosts' entries are removed |
| Agent.OfaAgent.AddMessageNetwork | neutron/plugins/ofagent/agent/ofa_neutron_agent.py:389-412 | a network of the message is processed without error exactly when it raises no KeyError |
| Agent.OfaAgent.FdbAdd | neutron/plugins/ofagent/agent/ofa_neutron_agent.py:389-412 | fdb_add succeeds exactly when no network of the message raises a KeyError; flood sets and registries only grow; networks not in the message are untouched; each tunnel network's flood set gains at least the flooding hosts' known ports and at most their ports after setup |
| Agent.OfaAgent.AddNetworks | neutron/plugins/ofagent/agent/ofa_neutron_agent.py:389-412 | the message's networks are processed in turn |
| Agent.OfaAgent.RemoveMessageNetwork | neutron/plugins/ofagent/agent/ofa_neutron_agent.py:414-430 | one network of a removal message is processed |
| Agent.OfaAgent.RemoveNetworks | neutron/plugins/ofagent/agent/ofa_neutron_agent.py:414-430 | all networks of a removal message are processed |
| Agent.OfaAgent.FdbRemove | neutron/plugins/ofagent/agent/ofa_neutron_agent.py:414-430 | a KeyError network makes fdb_remove fail, and it fails only on a KeyError or a flooding removal; flood sets and registries only shrink; networks not in the message are untouched; on success each tunnel network's flood set loses exactly the flooding hosts' registered ports |
| Agent.OfaAgent.CheckChangedVlans | neutron/plugins/ofagent/agent/ofa_neutron_agent.py:762-784 | the changed ports are exactly the registered VIFs whose port tag differs from their network's tag |
| Agent.OfaAgent.ScanPorts | neutron/plugins/ofagent/agent/ofa_neutron_agent.py:737-760 | the scan result is the port diff with tag-lost ports counted as updated |
| Agent.OfaAgent.TreatAddedDevice | neutron/plugins/ofagent/agent/ofa_neutron_agent.py:853-902 | a device fails exactly when its details cannot be fetched; a device reported up is placed in its network, and one that is not bound (admin-down, undefined or absent from the bridge) leaves the map, the pool and the flows as they were, as `port_dead` does nothing |
| Agent.OfaAgent.TreatDevicesAddedOrUpdated | neutron/plugins/ofagent/agent/ofa_neutron_agent.py:853-902 | resync is asked exactly when some fetch failed; the devices reported up and down are the ones bound and admin-down |
| Agent.OfaAgent.TreatRemovedDevice | neutron/plugins/ofagent/agent/ofa_neutron_agent.py:925-941 | a device fails exactly when its update_device_down fails, and is then left bound |
| Agent.OfaAgent.TreatDevicesRemoved | neutron/plugins/ofagent/agent/ofa_neutron_agent.py:925-941 | resync is asked exactly when some removed device failed |
| Agent.OfaAgent.ProcessNetworkPorts | neutron/plugins/ofagent/agent/ofa_neutron_agent.py:964-995 | resync is asked exactly when treating the added/updated or removed devices asked for it |
| Agent.OfaAgent.TreatAncillaryDevicesAdded | neutron/plugins/ofagent/agent/ofa_neutron_agent.py:904-923 | resync is asked exactly when some details fetch failed |
| Agent.OfaAgent.TreatAncillaryDevicesRemoved | neutron/plugins/ofagent/agent/ofa_neutron_agent.py:943-962 | resync is asked exactly when some removed ancillary device failed |
| Agent.OfaAgent.ProcessAncillaryNetworkPorts | neutron/plugins/ofagent/agent/ofa_neutron_agent.py:997-1019 | resync is asked exactly when either ancillary pass asked for it |
| Agent.OfaAgent.PollPorts | neutron/plugins/ofagent/agent/ofa_neutron_agent.py:1096-1150 | one poll scans ports against the observed bridge and asks for a resync exactly when a pass failed |
| Agent.OfaAgent.PollOnce | neutron/plugins/ofagent/agent/ofa_neutron_agent.py:1055-1174 | one loop iteration: without updates nothing happens; a failed scan forces a resync and keeps the pending updates; otherwise the pending updates are consumed; no pending update is lost |
| Findings.SetupTunnelPortAsWritten | neutron/plugins/ofagent/agent/ofa_neutron_agent.py:817-836 | setup_tunnel_port as written: the port is registered but the flow table is never changed |
| Findings.SetupTunnelPortAsWrittenLeavesPortUnchecked | neutron/plugins/ofagent/agent/ofa_neutron_agent.py:834-835 | as written, a successfully added tunnel port raises and gets no CHECK_IN_PORT entry |
| Findings.ReclaimAsWritten | neutron/plugins/ofagent/agent/ofa_neutron_agent.py:549-572 | reclaim_local_vlan as written: the mapping is removed whatever happens after |
| Findings.ReclaimAsWrittenLeaksTag | neutron/plugins/ofagent/agent/ofa_neutron_agent.py:553-561 | as written, reclaiming a tunnel (with tunneling on), VLAN or flat network raises before the tag returns to the pool, so the tag is lost |
| Findings.DelFloodAsWritten | neutron/plugins/ofagent/agent/ofa_neutron_agent.py:445-457 | _del_fdb_flow's flooding branch as written: the port leaves the set but no flow changes |
| Findings.DelFloodAsWrittenStillFloods | neutron/plugins/ofagent/agent/ofa_neutron_agent.py:450-456 | as written, the tunnel-flood entry keeps outputting to the removed port |
| Findings.BoundRecordAsWritten | neutron/plugins/ofagent/agent/ofa_neutron_agent.py:585-588 | port_bound as written: a new network with an empty pool leaves no mapping |
| Findings.PortBoundAsWrittenRaises | neutron/plugins/ofagent/agent/ofa_neutron_agent.py:585-588 | as written, binding on a new network with 4093 networks mapped raises KeyError |
| Findings.UnbindCallsAsWritten | neutron/plugins/ofagent/agent/ofa_neutron_agent.py:619-626 | port_unbound's bridge calls as written: the flood entry is neither rewritten while ports remain nor deleted with the last port |
| Findings.UnbindSharedAsWrittenKeepsFlood | neutron/plugins/ofagent/agent/ofa_neutron_agent.py:619-626 | as written, unbinding from a shared network leaves the old flood entry untouched |
| Findings.UnbindLastAsWrittenKeepsFlood | neutron/plugins/ofagent/agent/ofa_neutron_agent.py:621-626 | as written, unbinding a network's last port leaves its LOCAL_FLOOD entry unchanged: the reclaim deletes only ingress and PHYS_FLOOD or TUNNEL_IN entries |
| Findings.UnbindAsWrittenFloodsToUnboundPort | neutron/plugins/ofagent/agent/ofa_neutron_agent.py:619-626 | as written, after unbinding port 1 of ports 1 and 2 the flood entry still outputs to port 1 |
| Findings.ReclaimTenantPhysnetAsWritten | neutron/plugins/ofagent/agent/flows.py:269-279 | reclaim_tenant_physnet as written on the agent's segmentation id: an absent (flat) id raises before any delete and leaves the table as it was; an integer id only removes entries |
| Findings.FlatReclaimAsWrittenKeepsFlows | neutron/plugins/ofagent/agent/flows.py:272 | as written, reclaiming a provisioned flat network raises and both its ingress and PHYS_FLOOD entries stay |
| Findings.FlatReclaimAsWrittenDropsVlanIngress | neutron/plugins/ofagent/agent/flows.py:273-278 | as written with an integer segmentation id (the line-272 TypeError removed), reclaiming a flat network also deletes a VLAN network's ingress entry on the same physical port |
| Findings.FlatReclaimKeepsVlanIngress | neutron/plugins/ofagent/agent/flows.py:276-278 | the corrected flat reclaim keeps every VLAN ingress entry unchanged |

## Left out

- Logging, timing, `daemon_loop`'s sleep and the iteration counter; `int_br_device_count` and `_report_state` (state reporting only).
- RPC setup, `setup_rpc`, the consumers, `fdb_update` dispatch and the security-group agent (`sg_agent`); firewall calls are not modelled, and `firewall_refresh_needed` is an observation of `PollObservation`.
- `tunnel_sync` and the polling manager are observations: their outcome is a field of `PollObservation`.
- Bridge creation and plumbing: `setup_integration_br`, `setup_physical_bridges`, `setup_ancillary_bridges`, veth helpers, `_get_ports`, and `ofswitch.py`'s datapath handling; `tables.py` and `ofswitch.py` are not part of this model, and their table ids and default-entry helpers are assumed as listed above.
- `LocalVLANMapping` is a value kept in the agent's map; the aliasing of the Python object between the map and local variables is not modelled.
- Iteration over Python sets and dicts has no defined order; the model lists a set in some order (`Iteration.IterationOrder`), and the properties proved hold for every order.
- Agent.OfaAgent.PortUnbound: given an explicit network that does not hold the VIF, the code dereferences `None` and raises AttributeError; the model returns `unbound == false` and changes nothing. The only caller (`treat_devices_removed`) passes no network, so this case is not reached there.
- Agent.OfaAgent.FdbRemove: it does not state exactly when removing a flooding entry raises KeyError, because that depends on the order in which networks and hosts are visited. It states that a KeyError network always makes the call fail, and that a failure comes only from a KeyError network or a flooding removal.
- Agent.OfaAgent.TreatDevicesRemoved: follows the code, where a failed `update_device_down` skips the unbind (`continue`), not a description in which unbinding proceeds anyway.
- Agent.OfaAgent.PollOnce: an exception after the port scan (in device processing) is modelled as the scan failing, which the code does differently in two ways. First, `scan_ports` narrows the caller's copy of the updated ports in place (neutron/plugins/ofagent/agent/ofa_neutron_agent.py:743-749), so line 1156 puts back (notified plus tag-lost) ∩ current, not the notified set the model restores. Second, the bindings made before the exception stay in the code, while the model keeps the records as they were before the iteration. Both restore the pending updates and ask for a resync.
- Segmentation ids: a flat network has no segmentation id in the code (None); the model writes 0. Provisioning a flat network never reads it. Reclaiming one, as written, computes `segmentation_id | OFPVID_PRESENT` first (neutron/plugins/ofagent/agent/flows.py:272) and raises TypeError; that is Finding 7 below, modelled on the absent id in `Findings.ReclaimTenantPhysnetAsWritten`. The members in the next five lines show the evidently intended deletion instead.
- Flows.IntegrationBridge.ReclaimTenantPhysnet: for a flat network it deletes the ingress and PHYS_FLOOD entries, where the code raises TypeError at neutron/plugins/ofagent/agent/flows.py:272 and deletes nothing.
- FlowProperties.TenantPhysnetRoundTrip: its flat case holds for the intended reclaim only; as written, the flat reclaim raises and undoes nothing (`Findings.FlatReclaimAsWrittenKeepsFlows`).
- AgentFlows.ProvisionReclaimRoundTrip: the same for a flat network's provision and reclaim calls.
- Agent.OfaAgent.ReclaimLocalVlan: a flat network's tag returns to the pool. In the code, the TypeError in `reclaim_tenant_physnet` (and, before it, the errors of Finding 2) prevents that. A VLAN or flat network whose physical network has no bridge also gets its tag back without any flow change, mirroring the guard of provisioning (neutron/plugins/ofagent/agent/ofa_neutron_agent.py:514-523); the corrected line 560 (`self.int_ofports[lvm.physical_network]`) would raise KeyError there.
- Findings.FlatReclaimAsWrittenDropsVlanIngress: it takes an integer segmentation id. A flat network reaches lines 276-278 only once the TypeError at line 272 is removed, as the evidently intended fix of Finding 7 does; with the None the code holds today, line 272 raises first.
- TunnelNames.TunnelPortName: only canonical dotted quads are modelled. `netaddr.IPAddress(..., version=4)` also accepts inet_aton spellings (such as "10.1", hex or zero-padded octets) and names a tunnel port for them; the model returns None for those strings.
- TunnelNames.ParseIpv4: accepts the canonical dotted quad only, for the same reason.
- AgentFlows.UnbindSpec: its last-port case deletes the network's LOCAL_FLOOD entry, which the code never does (Finding 8); as written the entry stays (`Findings.UnbindLastAsWrittenKeepsFlood`).
- AgentFlows.UnbindFloodSpec: the same correction; "deletes both kinds with the last port" is the evidently intended behaviour, not `port_unbound`'s.
- Agent.OfaAgent.UnbindLastPort: calls `local_flood_delete`, which has no caller in the code (Finding 8).
- Agent.OfaAgent.UnbindPort: inherits that correction for the last VIF.
- Exceptions raised by the bridge or by ovsdb, other than the KeyErrors listed under Findings, are not modelled.

## Findings

| source | as written | input that shows it | evidently intended | confidence | as-written member | corrected member |
|---|---|---|---|---|---|---|
| neutron/plugins/ofagent/agent/ofa_neutron_agent.py:834-835 | `setup_tunnel_port` calls `check_in_port_add_tunnel_port`, but the bridge method is spelled `check_in_port_add_tuunel_port` (neutron/plugins/ofagent/agent/flows.py:281); the call raises AttributeError after the port is registered | any remote address whose port add returns an ofport >= 0 | install the tunnel port's CHECK_IN_PORT entry going to TUNNEL_IN | high, not executed | Findings.SetupTunnelPortAsWrittenLeavesPortUnchecked | FlowProperties.CheckInPortTunnelInstalled |
| neutron/plugins/ofagent/agent/ofa_neutron_agent.py:553-561 | `reclaim_local_vlan` reads `lvm.lvid`, an attribute `LocalVLANMapping` does not have (it stores `vlan`, neutron/plugins/ofagent/agent/ofa_neutron_agent.py:60-72), and the flat/VLAN branch also uses the undefined name `physical_network`; either error is raised before `available_local_vlans.add`, after the network left `local_vlan_map` | reclaiming a VLAN or flat network, or a tunnel network with tunneling on | delete that network's flows and return its tag to the pool; where the physical network has no bridge, skip the flows as provisioning does (514-523) and still return the tag | high, not executed | Findings.ReclaimAsWrittenLeaksTag | AgentState.ReclaimConserves |
| neutron/plugins/ofagent/agent/ofa_neutron_agent.py:450-456 | `_del_fdb_flow` uses `tables.TUNNEL_OUT_FLOOD`, while `_add_fdb_flow` installs into `tables.TUNNEL_FLOOD` (neutron/plugins/ofagent/agent/ofa_neutron_agent.py:436) | removing the flooding entry of a host whose port is in the flood set | rewrite (or delete) the TUNNEL_FLOOD entry without that port | medium (tables.py is not part of this model), not executed | Findings.DelFloodAsWrittenStillFloods | AgentFlows.DelFdbStep |
| neutron/plugins/ofagent/agent/ofa_neutron_agent.py:585-588 | `port_bound` calls `provision_local_vlan`, which returns without a mapping when the pool is empty (neutron/plugins/ofagent/agent/ofa_neutron_agent.py:493-495), and then indexes `local_vlan_map[net_uuid]` | binding a port on a new network when all 4093 tags are in use | report that the port cannot be bound and change nothing | high, not executed | Findings.PortBoundAsWrittenRaises | Agent.OfaAgent.PortBound |
| neutron/plugins/ofagent/agent/ofa_neutron_agent.py:619-626 | `port_unbound` removes the port's ingress and LOCAL_OUT entries but never rewrites the LOCAL_FLOOD entry of a network that still has ports | ports 1 and 2 bound on one network; unbind port 1 | the flood entry outputs only to the remaining ports | medium-high, not executed | Findings.UnbindAsWrittenFloodsToUnboundPort | AgentFlows.UnbindSpec |
| neutron/plugins/ofagent/agent/flows.py:276-278 | for a flat network `reclaim_tenant_physnet` deletes non-strictly by `in_port`, which also removes the ingress entries of VLAN networks on the same physical port | a flat and a VLAN network on one physical network; reclaim the flat one with an integer segmentation id, which is what the flat path receives once the TypeError of row 7 is fixed | delete only the flat network's untagged ingress entry | medium, not executed | Findings.FlatReclaimAsWrittenDropsVlanIngress | Findings.FlatReclaimKeepsVlanIngress |
| neutron/plugins/ofagent/agent/flows.py:272 | `reclaim_tenant_physnet` ORs the segmentation id with OFPVID_PRESENT before branching on the network type; a flat network has no segmentation id (None), so the reclaim raises TypeError and deletes nothing | provision a flat network, then reclaim it | compute the tag for VLAN only, as `provision_tenant_physnet` does (232), and delete the flat network's ingress and PHYS_FLOOD entries | high, not executed | Findings.FlatReclaimAsWrittenKeepsFlows | FlowProperties.TenantPhysnetRoundTrip |
| neutron/plugins/ofagent/agent/ofa_neutron_agent.py:622-623 | when the last VIF leaves, `port_unbound` reclaims the network, but neither it nor `reclaim_local_vlan` (535-572) deletes the network's LOCAL_FLOOD entry; `local_flood_delete` (neutron/plugins/ofagent/agent/flows.py:338) has no caller | bind port 1 alone on a network, then unbind it: the flood entry still outputs to port 1, under a tag that goes back to the pool | delete the LOCAL_FLOOD entry with the last VIF, as AgentFlows.UnbindFloodSpec, AgentFlows.UnbindSpec, Agent.OfaAgent.UnbindLastPort and Agent.OfaAgent.UnbindPort do | medium-high, not executed | Findings.UnbindLastAsWrittenKeepsFlood | AgentFlows.UnbindFloodSpec |
