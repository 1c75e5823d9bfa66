/**
 * The reconciliation diff of the polling loop: which ports are on a bridge
 * now, which of them the agent has to (re)wire, and which have gone.
 */
module PortScan {
  import opened Wrappers
  import opened Constants
  import opened AgentState

  /**
   * port_info: the ports on the bridge now and, when present, those to
   * rewire, those new and those gone. A missing key is None.
   */
  datatype PortInfo = PortInfo(
    current: set<PortId>,
    updated: Option<set<PortId>>,
    added: Option<set<PortId>>,
    removed: Option<set<PortId>>)

  /** port_info.get(key, set()). */
  function Get(o: Option<set<PortId>>): set<PortId>
  {
    if o.Some? then o.value else {}
  }

  /** The port belongs to the network and the switch shows it with a tag other than the network's. */
  predicate LostTagIn(lvm: LocalVlanMapping, port: PortId, portTags: map<string, int>)
  {
    port in lvm.vifPorts && lvm.vifPorts[port].portName in portTags && portTags[lvm.vifPorts[port].portName] != lvm.vlan
  }

  /** The port lost its tag in some network it belongs to. */
  predicate LostTag(m: map<NetId, LocalVlanMapping>, port: PortId, portTags: map<string, int>)
  {
    exists n :: n in m && LostTagIn(m[n], port, portTags)
  }

  /** The port lost its tag in one of the given networks. */
  ghost predicate LostTagAmong(m: map<NetId, LocalVlanMapping>, nets: set<NetId>, port: PortId, portTags: map<string, int>)
  {
    exists n :: n in nets && n in m && LostTagIn(m[n], port, portTags)
  }

  /** Looking at one more network. */
  lemma LostTagAmongStep(m: map<NetId, LocalVlanMapping>, nets: set<NetId>, net: NetId, portTags: map<string, int>)
    requires net in m
    ensures forall p :: LostTagAmong(m, nets + {net}, p, portTags) <==> LostTagAmong(m, nets, p, portTags) || LostTagIn(m[net], p, portTags)
  {
    forall p | LostTagAmong(m, nets + {net}, p, portTags) && !LostTagIn(m[net], p, portTags)
      ensures LostTagAmong(m, nets, p, portTags)
    {
      var n :| n in nets + {net} && n in m && LostTagIn(m[n], p, portTags);
      assert n in nets;
    }
  }

  /** The registered ports that lost their tag. */
  function ChangedVlans(m: map<NetId, LocalVlanMapping>, registered: set<PortId>, portTags: map<string, int>): set<PortId>
  {
    set p | p in registered && LostTag(m, p, portTags)
  }

  /**
   * The diff between the registered ports and those on the bridge: the
   * current set; the ports to rewire when there are any; the added and
   * removed sets unless nothing was added or removed.
   */
  function PortDiff(registered: set<PortId>, current: set<PortId>, toRewire: set<PortId>): PortInfo
  {
    PortInfo(current,
             if toRewire != {} then Some(toRewire) else None,
             if current == registered then None else Some(current - registered),
             if current == registered then None else Some(registered - current))
  }

  /** The registered set with a diff's removals and additions applied. */
  function ApplyDiff(registered: set<PortId>, info: PortInfo): set<PortId>
  {
    (registered - Get(info.removed)) + Get(info.added)
  }

  /**
   * The diff is exact: applying it to the registered set gives the current
   * set; nothing is both added and removed; the added and removed sets are
   * absent exactly when nothing changed, and never present but empty
   * together.
   */
  lemma PortDiffSpec(registered: set<PortId>, current: set<PortId>, toRewire: set<PortId>)
    ensures ApplyDiff(registered, PortDiff(registered, current, toRewire)) == current
    ensures Get(PortDiff(registered, current, toRewire).added) !! Get(PortDiff(registered, current, toRewire).removed)
    ensures PortDiff(registered, current, toRewire).added.None? <==> current == registered
    ensures PortDiff(registered, current, toRewire).added.Some? ==>
      Get(PortDiff(registered, current, toRewire).added) + Get(PortDiff(registered, current, toRewire).removed) != {}
    ensures PortDiff(registered, current, toRewire).updated.Some? ==> PortDiff(registered, current, toRewire).updated.value != {}
  {
    var info := PortDiff(registered, current, toRewire);
    if current != registered {
      assert Get(info.added) + Get(info.removed) != {} by {
        if current - registered == {} {
          forall p | p in current ensures p in registered {
            assert p !in current - registered;
          }
        }
      }
    }
  }

  /** The ports of all the bridges. */
  function Union(sets: seq<set<PortId>>): (r: set<PortId>)
    ensures forall i :: 0 <= i < |sets| ==> sets[i] <= r
    ensures forall p :: p in r ==> exists i :: 0 <= i < |sets| && p in sets[i]
  {
    if sets == [] then {} else Union(sets[..|sets| - 1]) + sets[|sets| - 1]
  }

  /** The ancillary bridges' diff: None when their ports are the registered ones. */
  function AncillaryDiff(registered: set<PortId>, bridgePorts: seq<set<PortId>>): Option<PortInfo>
  {
    var ports := Union(bridgePorts);
    if ports == registered then None else Some(PortInfo(ports, None, Some(ports - registered), Some(registered - ports)))
  }

  /**
   * update_ancillary_ports: the ports of the ancillary bridges (each
   * bridge's port set is an element of bridgePorts) against the registered
   * ones; None when nothing changed, otherwise the current set with what was
   * added and what was removed.
   */
  method UpdateAncillaryPorts(registered: set<PortId>, bridgePorts: seq<set<PortId>>) returns (r: Option<PortInfo>)
    ensures r == AncillaryDiff(registered, bridgePorts)
    ensures r.None? <==> Union(bridgePorts) == registered
    ensures r.Some? ==> r.value.current == Union(bridgePorts) && r.value.updated.None?
    ensures r.Some? ==> r.value.added == Some(Union(bridgePorts) - registered)
    ensures r.Some? ==> r.value.removed == Some(registered - Union(bridgePorts))
    ensures r.Some? ==> ApplyDiff(registered, r.value) == r.value.current
  {
    var ports: set<PortId> := {};
    for i := 0 to |bridgePorts|
      invariant ports == Union(bridgePorts[..i])
    {
      assert bridgePorts[..i + 1][..i] == bridgePorts[..i];
      ports := ports + bridgePorts[i];
    }
    assert bridgePorts[..|bridgePorts|] == bridgePorts;
    if ports == registered {
      return None;
    }
    r := Some(PortInfo(ports, None, Some(ports - registered), Some(registered - ports)));
  }

  /**
   * scan_ports' result: the diff of the registered ports against the
   * current ones, where the ports to rewire are those notified by
   * port_update or found with a lost tag, and still on the bridge.
   */
  function ScanResult(registered: set<PortId>, notified: set<PortId>, current: set<PortId>, changed: set<PortId>): PortInfo
  {
    PortDiff(registered, current, (notified + changed) * current)
  }

  /**
   * A scan loses no notification: every notified or tag-lost port still on
   * the bridge is to be rewired, and nothing else is; after a resync (no
   * registered port) every current port counts as added.
   */
  lemma ScanResultSpec(registered: set<PortId>, notified: set<PortId>, current: set<PortId>, changed: set<PortId>)
    ensures Get(ScanResult(registered, notified, current, changed).updated) == (notified + changed) * current
    ensures notified * current <= Get(ScanResult(registered, notified, current, changed).updated)
    ensures Get(ScanResult(registered, notified, current, changed).updated) !! Get(ScanResult(registered, notified, current, changed).removed)
    ensures registered == {} ==> Get(ScanResult(registered, notified, current, changed).added) == current
  {
    var info := ScanResult(registered, notified, current, changed);
    if registered == {} && current != {} {
      assert current - registered == current;
    }
  }

  /** _port_info_has_changes: something was added, removed or is to be rewired. */
  predicate HasChanges(info: PortInfo)
  {
    Get(info.added) != {} || Get(info.removed) != {} || Get(info.updated) != {}
  }

  // ---- the plugin's answers and what a pass does with them

  /**
   * get_device_details' answer for one device: the call failed, the plugin
   * does not know the device, or the port's details (a flat network's
   * absent segmentation id is written 0, as in LocalVlanMapping).
   */
  datatype DeviceDetails =
    | RpcFailed
    | NotDefined
    | Details(networkId: NetId, networkType: NetworkType, physicalNetwork: Option<string>,
              segmentationId: nat, adminStateUp: bool)

  /** The answer for a device; one missing from the map is a failed call. */
  function DetailsOf(details: map<PortId, DeviceDetails>, device: PortId): DeviceDetails
  {
    if device in details then details[device] else RpcFailed
  }

  /** get_vif_port_by_id: the bridge's port for each VIF id it has, under that id. */
  predicate ById(vifPorts: map<PortId, VifPort>)
  {
    forall d :: d in vifPorts ==> vifPorts[d].vifId == d
  }

  /** The device is on the bridge and its details could not be fetched. */
  predicate FetchFailed(vifPorts: map<PortId, VifPort>, details: map<PortId, DeviceDetails>, device: PortId)
  {
    device in vifPorts && DetailsOf(details, device).RpcFailed?
  }

  /** The device is on the bridge and the plugin sent its details. */
  predicate Detailed(vifPorts: map<PortId, VifPort>, details: map<PortId, DeviceDetails>, device: PortId)
  {
    device in vifPorts && DetailsOf(details, device).Details?
  }

  /** The device is on the bridge and the plugin wants it up: it is to be bound. */
  predicate BindsPort(vifPorts: map<PortId, VifPort>, details: map<PortId, DeviceDetails>, device: PortId)
  {
    Detailed(vifPorts, details, device) && DetailsOf(details, device).adminStateUp
  }

  /** treat_devices_added_or_updated asks for a resync: some device on the bridge had no details. */
  ghost predicate AddResync(devices: set<PortId>, vifPorts: map<PortId, VifPort>, details: map<PortId, DeviceDetails>)
  {
    exists d :: d in devices && FetchFailed(vifPorts, details, d)
  }

  /** The devices reported up to the plugin (update_device_up). */
  function ReportedUp(devices: set<PortId>, vifPorts: map<PortId, VifPort>, details: map<PortId, DeviceDetails>): set<PortId>
  {
    set d | d in devices && BindsPort(vifPorts, details, d)
  }

  /** The devices reported down to the plugin (update_device_down). */
  function ReportedDown(devices: set<PortId>, vifPorts: map<PortId, VifPort>, details: map<PortId, DeviceDetails>): set<PortId>
  {
    set d | d in devices && Detailed(vifPorts, details, d) && !DetailsOf(details, d).adminStateUp
  }

  // ---- bindings before and after

  /** The VIF is bound in the network. */
  predicate IsBound(m: map<NetId, LocalVlanMapping>, net: NetId, vif: PortId)
  {
    net in m && vif in m[net].vifPorts
  }

  /** Every binding of m0 other than those of the ports in gone is still in m. */
  ghost predicate BindingsKept(m0: map<NetId, LocalVlanMapping>, m: map<NetId, LocalVlanMapping>, gone: set<PortId>)
  {
    forall n, p :: IsBound(m0, n, p) && p !in gone ==> IsBound(m, n, p)
  }

  /** Every binding of m was in m0 or is of a port in added. */
  ghost predicate BindingsFrom(m0: map<NetId, LocalVlanMapping>, m: map<NetId, LocalVlanMapping>, added: set<PortId>)
  {
    forall n, p :: IsBound(m, n, p) ==> IsBound(m0, n, p) || p in added
  }

  /** Every binding of m was in m0. */
  ghost predicate BindingsWithin(m0: map<NetId, LocalVlanMapping>, m: map<NetId, LocalVlanMapping>)
  {
    forall n, p :: IsBound(m, n, p) ==> IsBound(m0, n, p)
  }

  /** The VIF is bound in no network. */
  ghost predicate BoundNowhere(m: map<NetId, LocalVlanMapping>, vif: PortId)
  {
    forall n :: !IsBound(m, n, vif)
  }

  /** The VIF is bound in one network at most. */
  ghost predicate BoundAtMostOnce(m: map<NetId, LocalVlanMapping>, vif: PortId)
  {
    forall n1, n2 :: IsBound(m, n1, vif) && IsBound(m, n2, vif) ==> n1 == n2
  }

  /** The VIF is bound in the network, or the network has no tag and none is left to give it. */
  ghost predicate Placed(m: map<NetId, LocalVlanMapping>, pool: set<int>, net: NetId, vif: PortId)
  {
    IsBound(m, net, vif) || (net !in m && pool == {})
  }

  /** port_unbound's effect on the map: the VIF leaves the network, and the network goes with its last VIF. */
  ghost predicate UnboundFrom(m0: map<NetId, LocalVlanMapping>, m: map<NetId, LocalVlanMapping>, net: NetId, vif: PortId)
  {
    && net in m0 && vif in m0[net].vifPorts
    && m == if |m0[net].vifPorts - {vif}| > 0 then m0[net := m0[net].(vifPorts := m0[net].vifPorts - {vif})] else m0 - {net}
  }

  /** One device of treat_devices_added_or_updated: bindings only grow, and the device, when it is to be bound, is placed. */
  ghost predicate AddStep(m1: map<NetId, LocalVlanMapping>, pool1: set<int>, m2: map<NetId, LocalVlanMapping>, pool2: set<int>,
                          vifPorts: map<PortId, VifPort>, details: map<PortId, DeviceDetails>, device: PortId)
  {
    && m1.Keys <= m2.Keys && BindingsKept(m1, m2, {}) && BindingsFrom(m1, m2, {device})
    && pool2 <= pool1 && (pool1 == {} ==> m2.Keys <= m1.Keys)
    && (BindsPort(vifPorts, details, device) ==> Placed(m2, pool2, DetailsOf(details, device).networkId, device))
  }

  /** The devices in done have been treated as added or updated, starting from m0 and pool0. */
  ghost predicate AddedFrom(m0: map<NetId, LocalVlanMapping>, pool0: set<int>, m: map<NetId, LocalVlanMapping>, pool: set<int>,
                            vifPorts: map<PortId, VifPort>, details: map<PortId, DeviceDetails>, done: set<PortId>)
  {
    && m0.Keys <= m.Keys && BindingsKept(m0, m, {}) && BindingsFrom(m0, m, done) && pool <= pool0
    && forall d :: d in done && BindsPort(vifPorts, details, d) ==> Placed(m, pool, DetailsOf(details, d).networkId, d)
  }

  lemma AddedFromStep(m0: map<NetId, LocalVlanMapping>, pool0: set<int>, m1: map<NetId, LocalVlanMapping>, pool1: set<int>,
                      m2: map<NetId, LocalVlanMapping>, pool2: set<int>,
                      vifPorts: map<PortId, VifPort>, details: map<PortId, DeviceDetails>, done: set<PortId>, device: PortId)
    requires AddedFrom(m0, pool0, m1, pool1, vifPorts, details, done)
    requires AddStep(m1, pool1, m2, pool2, vifPorts, details, device)
    ensures AddedFrom(m0, pool0, m2, pool2, vifPorts, details, done + {device})
  {
    forall d | d in done + {device} && BindsPort(vifPorts, details, d)
      ensures Placed(m2, pool2, DetailsOf(details, d).networkId, d)
    {
      if d != device {
        var n := DetailsOf(details, d).networkId;
        assert Placed(m1, pool1, n, d);
        if n !in m1 {
          assert n !in m2;
        }
      }
    }
  }

  /** Binding a VIF in a network the map has adds that one binding. */
  lemma BindInExisting(m1: map<NetId, LocalVlanMapping>, net: NetId, port: VifPort)
    requires net in m1
    ensures var m2 := m1[net := m1[net].(vifPorts := m1[net].vifPorts[port.vifId := port])];
      && m1.Keys <= m2.Keys && m2.Keys <= m1.Keys
      && BindingsKept(m1, m2, {}) && BindingsFrom(m1, m2, {port.vifId}) && IsBound(m2, net, port.vifId)
  {
  }

  /** Binding a VIF in a network new to the map adds the network with that one binding. */
  lemma BindInNew(m1: map<NetId, LocalVlanMapping>, net: NetId, lvm: LocalVlanMapping, port: VifPort)
    requires net !in m1 && lvm.vifPorts == map[port.vifId := port]
    ensures var m2 := m1[net := lvm];
      && m1.Keys <= m2.Keys
      && BindingsKept(m1, m2, {}) && BindingsFrom(m1, m2, {port.vifId}) && IsBound(m2, net, port.vifId)
  {
  }

  /** One more device treated: a resync is asked for when it was already or the device's fetch failed. */
  lemma AddResyncStep(done: set<PortId>, device: PortId, vifPorts: map<PortId, VifPort>, details: map<PortId, DeviceDetails>)
    ensures AddResync(done + {device}, vifPorts, details) <==> AddResync(done, vifPorts, details) || FetchFailed(vifPorts, details, device)
  {
    if AddResync(done + {device}, vifPorts, details) && !FetchFailed(vifPorts, details, device) {
      var d :| d in done + {device} && FetchFailed(vifPorts, details, d);
      assert d in done;
    }
  }

  /** One more device treated: it is reported up or down according to its details. */
  lemma ReportedStep(done: set<PortId>, device: PortId, vifPorts: map<PortId, VifPort>, details: map<PortId, DeviceDetails>)
    ensures ReportedUp(done + {device}, vifPorts, details)
      == ReportedUp(done, vifPorts, details) + (if BindsPort(vifPorts, details, device) then {device} else {})
    ensures ReportedDown(done + {device}, vifPorts, details)
      == ReportedDown(done, vifPorts, details)
         + (if Detailed(vifPorts, details, device) && !DetailsOf(details, device).adminStateUp then {device} else {})
  {
  }

  /** Taking one more element out of what is left to visit. */
  lemma VisitOne(all: set<PortId>, rest: set<PortId>, x: PortId, fails: set<PortId>)
    requires rest <= all && x in rest
    ensures all - (rest - {x}) == (all - rest) + {x}
    ensures ((all - rest) + {x}) * fails != {} <==> (all - rest) * fails != {} || x in fails
    ensures ((all - rest) + {x}) - fails == ((all - rest) - fails) + (if x in fails then {} else {x})
  {
    if x !in fails && ((all - rest) + {x}) * fails != {} {
      var y :| y in ((all - rest) + {x}) * fails;
      assert y in (all - rest) * fails;
    }
    if x in fails {
      assert x in ((all - rest) + {x}) * fails;
    }
  }

  /** Where treat_devices_added_or_updated stands once the devices in done are treated. */
  ghost predicate AddLoop(m0: map<NetId, LocalVlanMapping>, pool0: set<int>, m: map<NetId, LocalVlanMapping>, pool: set<int>,
                          vifPorts: map<PortId, VifPort>, details: map<PortId, DeviceDetails>, done: set<PortId>,
                          resync: bool, up: set<PortId>, down: set<PortId>)
  {
    && AddedFrom(m0, pool0, m, pool, vifPorts, details, done)
    && (resync <==> AddResync(done, vifPorts, details))
    && up == ReportedUp(done, vifPorts, details) && down == ReportedDown(done, vifPorts, details)
  }

  /** What is told to the plugin about a device: up, down, or nothing. */
  function Status(vifPorts: map<PortId, VifPort>, details: map<PortId, DeviceDetails>, device: PortId): Option<bool>
  {
    if Detailed(vifPorts, details, device) then Some(DetailsOf(details, device).adminStateUp) else None
  }

  lemma AddLoopStep(m0: map<NetId, LocalVlanMapping>, pool0: set<int>, m1: map<NetId, LocalVlanMapping>, pool1: set<int>,
                    m2: map<NetId, LocalVlanMapping>, pool2: set<int>,
                    vifPorts: map<PortId, VifPort>, details: map<PortId, DeviceDetails>, done: set<PortId>, device: PortId,
                    resync: bool, up: set<PortId>, down: set<PortId>, failed: bool)
    requires AddLoop(m0, pool0, m1, pool1, vifPorts, details, done, resync, up, down)
    requires AddStep(m1, pool1, m2, pool2, vifPorts, details, device)
    requires failed <==> FetchFailed(vifPorts, details, device)
    ensures var status := Status(vifPorts, details, device);
      AddLoop(m0, pool0, m2, pool2, vifPorts, details, done + {device}, resync || failed,
              if status == Some(true) then up + {device} else up,
              if status == Some(false) then down + {device} else down)
  {
    AddedFromStep(m0, pool0, m1, pool1, m2, pool2, vifPorts, details, done, device);
    AddResyncStep(done, device, vifPorts, details);
    ReportedStep(done, device, vifPorts, details);
  }

  /** One device of treat_devices_removed: its binding goes, no other binding goes and none comes. */
  ghost predicate RemoveStep(m1: map<NetId, LocalVlanMapping>, m2: map<NetId, LocalVlanMapping>, device: PortId)
  {
    && m2.Keys <= m1.Keys && BindingsKept(m1, m2, {device}) && BindingsWithin(m1, m2)
    && (BoundAtMostOnce(m1, device) ==> BoundNowhere(m2, device))
  }

  /** port_unbound removes the VIF's one binding and nothing else. */
  lemma UnboundFromStep(m1: map<NetId, LocalVlanMapping>, m2: map<NetId, LocalVlanMapping>, net: NetId, vif: PortId)
    requires UnboundFrom(m1, m2, net, vif)
    ensures RemoveStep(m1, m2, vif)
  {
    var lvm := m1[net];
    if |lvm.vifPorts - {vif}| > 0 {
      forall n, p | IsBound(m1, n, p) && p != vif ensures IsBound(m2, n, p) {
        if n == net {
          assert p in lvm.vifPorts - {vif};
        }
      }
      if BoundAtMostOnce(m1, vif) {
        assert m2[net].vifPorts == lvm.vifPorts - {vif};
        forall n ensures !IsBound(m2, n, vif) {
          if n != net && IsBound(m2, n, vif) {
            assert IsBound(m1, n, vif) && IsBound(m1, net, vif);
          }
        }
      }
    } else {
      forall n, p | IsBound(m1, n, p) && p != vif ensures n != net {
        if n == net {
          assert false;
        }
      }
      if BoundAtMostOnce(m1, vif) {
        forall n ensures !IsBound(m2, n, vif) {
          if IsBound(m2, n, vif) {
            assert IsBound(m1, n, vif) && IsBound(m1, net, vif);
          }
        }
      }
    }
  }

  /** The devices in done have been treated as removed, those in fails with a failed report, starting from m0. */
  ghost predicate RemovedFrom(m0: map<NetId, LocalVlanMapping>, m: map<NetId, LocalVlanMapping>, done: set<PortId>, fails: set<PortId>)
  {
    && m.Keys <= m0.Keys && BindingsKept(m0, m, done - fails) && BindingsWithin(m0, m)
    && forall d :: d in done && d !in fails && BoundAtMostOnce(m0, d) ==> BoundNowhere(m, d)
  }

  lemma RemovedFromStep(m0: map<NetId, LocalVlanMapping>, m1: map<NetId, LocalVlanMapping>, m2: map<NetId, LocalVlanMapping>,
                        done: set<PortId>, fails: set<PortId>, device: PortId)
    requires RemovedFrom(m0, m1, done, fails)
    requires (device in fails && m2 == m1) || (device !in fails && RemoveStep(m1, m2, device))
    ensures RemovedFrom(m0, m2, done + {device}, fails)
  {
    forall n, p | IsBound(m0, n, p) && p !in (done + {device}) - fails
      ensures IsBound(m2, n, p)
    {
      assert p !in done - fails;
    }
  }

  /**
   * process_network_ports' effect on the bindings: the added-or-updated
   * pass followed by the removal pass. Removed ports not also treated as
   * added lose their one binding; treated ports not also removed keep
   * theirs.
   */
  lemma ProcessBindings(m0: map<NetId, LocalVlanMapping>, pool0: set<int>, m1: map<NetId, LocalVlanMapping>, pool1: set<int>,
                        m2: map<NetId, LocalVlanMapping>, vifPorts: map<PortId, VifPort>, details: map<PortId, DeviceDetails>,
                        devices: set<PortId>, removed: set<PortId>, fails: set<PortId>)
    requires AddedFrom(m0, pool0, m1, pool1, vifPorts, details, devices)
    requires RemovedFrom(m1, m2, removed, fails)
    ensures BindingsKept(m0, m2, removed - fails)
    ensures BindingsFrom(m0, m2, devices)
    ensures forall d :: d in removed && d !in fails && d !in devices && BoundAtMostOnce(m0, d) ==> BoundNowhere(m2, d)
    ensures forall d :: d in devices && d !in removed && BindsPort(vifPorts, details, d) && DetailsOf(details, d).networkId in m2 ==>
      IsBound(m2, DetailsOf(details, d).networkId, d)
  {
    forall d | d in removed && d !in fails && d !in devices && BoundAtMostOnce(m0, d) ensures BoundNowhere(m2, d) {
      forall n1, n2 | IsBound(m1, n1, d) && IsBound(m1, n2, d) ensures n1 == n2 {
        assert IsBound(m0, n1, d) && IsBound(m0, n2, d);
      }
    }
    forall d | d in devices && d !in removed && BindsPort(vifPorts, details, d) && DetailsOf(details, d).networkId in m2
      ensures IsBound(m2, DetailsOf(details, d).networkId, d)
    {
      assert Placed(m1, pool1, DetailsOf(details, d).networkId, d);
    }
  }

  /** process_network_ports asks for a resync: a device to add or update had no details, or a removed one could not be reported down. */
  ghost predicate NetworkResync(info: PortInfo, vifPorts: map<PortId, VifPort>, details: map<PortId, DeviceDetails>, downFails: set<PortId>)
  {
    AddResync(Get(info.added) + Get(info.updated), vifPorts, details) || Get(info.removed) * downFails != {}
  }

  /** process_ancillary_network_ports asks for a resync: an added device had no details, or a removed one could not be reported down. */
  predicate AncillaryResync(info: PortInfo, fetchFails: set<PortId>, downFails: set<PortId>)
  {
    Get(info.added) * fetchFails != {} || Get(info.removed) * downFails != {}
  }

  // ---- one iteration of the polling loop

  /** What ovsdb_monitor_loop carries from one iteration to the next. */
  datatype LoopState = LoopState(sync: bool, ports: set<PortId>, ancillaryPorts: set<PortId>, tunnelSync: bool)

  /** Before the first iteration: out of sync, nothing registered, tunnels to announce. */
  const LOOP_START: LoopState := LoopState(true, {}, {}, true)

  /**
   * What one iteration learns from outside: whether the polling manager
   * requires a poll and the firewall a refresh; whether tunnel_sync asked
   * for another try; whether reading the bridge's ports raised; the
   * bridge's ports, tags and VIFs; the plugin's answers (details, failed
   * down reports); the ancillary bridges' ports and the plugin's failures
   * for them.
   */
  datatype PollObservation = PollObservation(
    pollingRequired: bool,
    firewallRefreshNeeded: bool,
    tunnelSyncFailed: bool,
    scanFailed: bool,
    curPorts: set<PortId>,
    portTags: map<string, int>,
    vifPorts: map<PortId, VifPort>,
    details: map<PortId, DeviceDetails>,
    downFails: set<PortId>,
    ancillaryBridges: seq<set<PortId>>,
    ancillaryFetchFails: set<PortId>,
    ancillaryDownFails: set<PortId>)

  /** The ports the iteration diffs against: none after a resync clears them. */
  function Registered(st: LoopState): set<PortId>
  {
    if st.sync then {} else st.ports
  }

  /** The ancillary ports the iteration diffs against. */
  function AncillaryRegistered(st: LoopState): set<PortId>
  {
    if st.sync then {} else st.ancillaryPorts
  }

  /** _agent_has_updates: a resync forces a poll; so do the polling manager, pending port updates and the firewall. */
  predicate Polls(st: LoopState, obs: PollObservation, pending: set<PortId>)
  {
    st.sync || obs.pollingRequired || pending != {} || obs.firewallRefreshNeeded
  }

  /** The network ports are processed when the scan found changes or the firewall needs a refresh. */
  predicate Processes(info: PortInfo, obs: PollObservation)
  {
    HasChanges(info) || obs.firewallRefreshNeeded
  }

  /** The ancillary diff the iteration processes, if any. */
  function AncillaryPass(ancillaryRegistered: set<PortId>, obs: PollObservation): Option<PortInfo>
  {
    if |obs.ancillaryBridges| > 0 then AncillaryDiff(ancillaryRegistered, obs.ancillaryBridges) else None
  }

  /** The ancillary ports registered after the iteration. */
  function AncillaryAfter(ancillaryRegistered: set<PortId>, obs: PollObservation): set<PortId>
  {
    var pass := AncillaryPass(ancillaryRegistered, obs);
    if pass.Some? then pass.value.current else ancillaryRegistered
  }

  /** The iteration asks for a resync: processing the network ports or the ancillary ports asked for one. */
  ghost predicate PollResync(info: PortInfo, ancillaryRegistered: set<PortId>, obs: PollObservation)
  {
    || (Processes(info, obs) && NetworkResync(info, obs.vifPorts, obs.details, obs.downFails))
    || (AncillaryPass(ancillaryRegistered, obs).Some?
        && AncillaryResync(AncillaryPass(ancillaryRegistered, obs).value, obs.ancillaryFetchFails, obs.ancillaryDownFails))
  }

  /**
   * After a resync the next scan starts from nothing registered, so every
   * port on the bridge is treated as added and every notified port still
   * there is rewired.
   */
  lemma ResyncRewiresAll(st: LoopState, notified: set<PortId>, current: set<PortId>, changed: set<PortId>)
    requires st.sync
    ensures Get(ScanResult(Registered(st), notified, current, changed).added) == current
    ensures notified * current <= Get(ScanResult(Registered(st), notified, current, changed).updated)
    ensures Get(ScanResult(Registered(st), notified, current, changed).removed) == {}
  {
    ScanResultSpec(Registered(st), notified, current, changed);
  }
}
