/**
 * The agent's records: the VIF ports it sees on the integration bridge, the
 * per-network LocalVLANMapping, the plugin's view of a port, and the local
 * tag pool together with the facts that keep tags unique.
 */
module AgentState {
  import opened Wrappers
  import opened Constants

  type NetId = string
  type PortId = string

  /** A port of the integration bridge that carries a VM interface. */
  datatype VifPort = VifPort(portName: string, ofport: int, vifId: PortId, vifMac: Option<string>)

  /**
   * LocalVLANMapping: a network present on this host, with its local tag,
   * its bound VIF ports (by VIF id) and the tunnel ports its traffic is
   * flooded to. A flat network has no segmentation id; it is written 0
   * here. Provisioning a flat network does not read it; reclaiming one, as
   * written, computes a tag from it and raises, which Findings models on
   * the absent id, while this model deletes the flat network's flows.
   */
  datatype LocalVlanMapping = LocalVlanMapping(
    vlan: int,
    networkType: NetworkType,
    physicalNetwork: Option<string>,
    segmentationId: nat,
    vifPorts: map<PortId, VifPort>,
    tunOfports: set<int>)

  /** A new mapping: no VIF port bound yet and nothing to flood to. */
  function NewLocalVlanMapping(vlan: int, networkType: NetworkType, physicalNetwork: Option<string>,
                               segmentationId: nat): (r: LocalVlanMapping)
    ensures r.vlan == vlan && r.networkType == networkType
    ensures |r.vifPorts| == 0 && |r.tunOfports| == 0
  {
    LocalVlanMapping(vlan, networkType, physicalNetwork, segmentationId, map[], {})
  }

  /** The plugin's view of a port, as far as rewiring is concerned. */
  datatype PortRecord = PortRecord(id: string, networkId: string, deviceId: string, adminStateUp: bool, status: string)

  /**
   * Port.__eq__: two records are equal when they name the same port with the
   * same administrative state; nothing equals a missing record.
   */
  predicate PortEq(p: PortRecord, other: Option<PortRecord>)
  {
    other.Some? && p.id == other.value.id && p.adminStateUp == other.value.adminStateUp
  }

  /** Port.__ne__ is the negation of Port.__eq__. */
  predicate PortNe(p: PortRecord, other: Option<PortRecord>)
  {
    !PortEq(p, other)
  }

  /**
   * Port.__eq__ is an equivalence on records that agrees with Port.__hash__
   * (the hash of the id): equal records have equal ids; a change of
   * administrative state makes a record unequal to its old self.
   */
  lemma PortEqIsEquivalence(p: PortRecord, q: PortRecord, r: PortRecord)
    ensures PortEq(p, Some(p))
    ensures PortEq(p, Some(q)) <==> PortEq(q, Some(p))
    ensures PortEq(p, Some(q)) && PortEq(q, Some(r)) ==> PortEq(p, Some(r))
    ensures PortEq(p, Some(q)) ==> p.id == q.id
    ensures !PortEq(p, None) && PortNe(p, None)
    ensures PortEq(p, Some(p.(adminStateUp := !p.adminStateUp))) == false
  {
  }

  // ------------------------------------------------ local tags

  /** The set holds exactly the integers lo .. hi - 1. */
  ghost predicate IsRange(s: set<int>, lo: int, hi: int)
  {
    forall t :: t in s <==> lo <= t < hi
  }

  /** The tags the networks hold. */
  function MappedTags(m: map<NetId, LocalVlanMapping>): set<int>
  {
    set n | n in m :: m[n].vlan
  }

  /** No two networks hold the same tag. */
  predicate TagsInjective(m: map<NetId, LocalVlanMapping>)
  {
    forall n1, n2 :: n1 in m && n2 in m && n1 != n2 ==> m[n1].vlan != m[n2].vlan
  }

  /**
   * Every tag of MIN_VLAN_TAG .. MAX_VLAN_TAG - 1 is either in the pool or
   * held by exactly one network, never both, and nothing else is in either.
   */
  ghost predicate TagsConserved(pool: set<int>, m: map<NetId, LocalVlanMapping>)
  {
    && pool !! MappedTags(m)
    && IsRange(pool + MappedTags(m), MIN_VLAN_TAG, MAX_VLAN_TAG)
    && TagsInjective(m)
  }

  /** The pool the agent starts with: every tag from MIN_VLAN_TAG to MAX_VLAN_TAG - 1, and no network holds one. */
  method TagPool() returns (pool: set<int>)
    ensures IsRange(pool, MIN_VLAN_TAG, MAX_VLAN_TAG)
    ensures TagsConserved(pool, map[])
  {
    pool := {};
    var t := MIN_VLAN_TAG;
    while t < MAX_VLAN_TAG
      invariant MIN_VLAN_TAG <= t <= MAX_VLAN_TAG
      invariant IsRange(pool, MIN_VLAN_TAG, t)
    {
      pool := pool + {t};
      t := t + 1;
    }
    assert MappedTags(map[]) == {};
  }

  /** A set holding exactly lo .. hi - 1 has hi - lo elements. */
  lemma {:induction false} RangeSize(s: set<int>, lo: int, hi: int)
    requires lo <= hi && IsRange(s, lo, hi)
    ensures |s| == hi - lo
    decreases hi - lo
  {
    if lo < hi {
      assert lo in s;
      RangeSize(s - {lo}, lo + 1, hi);
    } else {
      assert forall x :: x !in s;
    }
  }

  /** With no two networks sharing a tag, there are as many tags held as networks. */
  lemma {:induction false} MappedTagsSize(m: map<NetId, LocalVlanMapping>)
    requires TagsInjective(m)
    ensures |MappedTags(m)| == |m|
    decreases |m|
  {
    if m != map[] {
      var n :| n in m;
      var rest := m - {n};
      MappedTagsSize(rest);
      assert MappedTags(m) == MappedTags(rest) + {m[n].vlan} by {
        forall t | t in MappedTags(m) ensures t in MappedTags(rest) + {m[n].vlan} {
          var k :| k in m && m[k].vlan == t;
          if k != n { assert k in rest; }
        }
      }
      assert m[n].vlan !in MappedTags(rest);
    } else {
      assert MappedTags(m) == {};
    }
  }

  /**
   * The pool and the networks together always account for the
   * MAX_VLAN_TAG - MIN_VLAN_TAG tags: the pool runs dry exactly when that
   * many networks are present.
   */
  lemma PoolSize(pool: set<int>, m: map<NetId, LocalVlanMapping>)
    requires TagsConserved(pool, m)
    ensures |pool| + |m| == MAX_VLAN_TAG - MIN_VLAN_TAG
    ensures pool == {} <==> |m| == MAX_VLAN_TAG - MIN_VLAN_TAG
  {
    RangeSize(pool + MappedTags(m), MIN_VLAN_TAG, MAX_VLAN_TAG);
    MappedTagsSize(m);
  }

  /** Taking a tag from the pool for a new network keeps every tag accounted for once. */
  lemma {:induction false} ProvisionConserves(pool: set<int>, m: map<NetId, LocalVlanMapping>, net: NetId, lvm: LocalVlanMapping)
    requires TagsConserved(pool, m)
    requires net !in m && lvm.vlan in pool
    ensures TagsConserved(pool - {lvm.vlan}, m[net := lvm])
    ensures MappedTags(m[net := lvm]) == MappedTags(m) + {lvm.vlan}
  {
    var m2 := m[net := lvm];
    assert MappedTags(m2) == MappedTags(m) + {lvm.vlan} by {
      forall t | t in MappedTags(m2) ensures t in MappedTags(m) + {lvm.vlan} {
        var n :| n in m2 && m2[n].vlan == t;
        if n != net { assert t in MappedTags(m); }
      }
      forall t | t in MappedTags(m) ensures t in MappedTags(m2) {
        var n :| n in m && m[n].vlan == t;
        assert n in m2 && m2[n].vlan == t;
      }
      assert m2[net].vlan == lvm.vlan;
    }
    forall n1, n2 | n1 in m2 && n2 in m2 && n1 != n2 ensures m2[n1].vlan != m2[n2].vlan {
      if n1 == net {
        assert m2[n2].vlan in MappedTags(m);
      } else if n2 == net {
        assert m2[n1].vlan in MappedTags(m);
      }
    }
  }

  /** Giving a network's tag back to the pool keeps every tag accounted for once. */
  lemma {:induction false} ReclaimConserves(pool: set<int>, m: map<NetId, LocalVlanMapping>, net: NetId)
    requires TagsConserved(pool, m)
    requires net in m
    ensures TagsConserved(pool + {m[net].vlan}, m - {net})
    ensures MappedTags(m - {net}) == MappedTags(m) - {m[net].vlan}
  {
    var m2 := m - {net};
    var tag := m[net].vlan;
    assert MappedTags(m2) == MappedTags(m) - {tag} by {
      forall t | t in MappedTags(m2) ensures t in MappedTags(m) - {tag} {
        var n :| n in m2 && m2[n].vlan == t;
        assert n in m && n != net;
      }
      forall t | t in MappedTags(m) - {tag} ensures t in MappedTags(m2) {
        var n :| n in m && m[n].vlan == t;
        assert n != net;
        assert n in m2 && m2[n].vlan == t;
      }
    }
  }

  /** Changing a network's ports or flood set, keeping its tag, keeps every tag accounted for once. */
  lemma {:induction false} UpdateConserves(pool: set<int>, m: map<NetId, LocalVlanMapping>, net: NetId, lvm: LocalVlanMapping)
    requires TagsConserved(pool, m)
    requires net in m && lvm.vlan == m[net].vlan
    ensures TagsConserved(pool, m[net := lvm])
    ensures MappedTags(m[net := lvm]) == MappedTags(m)
  {
    var m2 := m[net := lvm];
    assert MappedTags(m2) == MappedTags(m) by {
      forall t | t in MappedTags(m2) ensures t in MappedTags(m) {
        var n :| n in m2 && m2[n].vlan == t;
        assert n in m && m[n].vlan == t;
      }
      forall t | t in MappedTags(m) ensures t in MappedTags(m2) {
        var n :| n in m && m[n].vlan == t;
        assert n in m2 && m2[n].vlan == t;
      }
    }
  }

  /** Updating a network's record and then forgetting the network is forgetting it. */
  lemma UpdateThenRemove(m: map<NetId, LocalVlanMapping>, net: NetId, lvm: LocalVlanMapping)
    ensures m[net := lvm] - {net} == m - {net}
  {
  }

  // ------------------------------------------------ VIF ports of a network

  /** Unicast must be flooded too when some bound port's MAC is unknown. */
  predicate FloodUnicast(vifPorts: map<PortId, VifPort>)
  {
    exists id :: id in vifPorts && vifPorts[id].vifMac.None?
  }

  /** The OpenFlow ports of the bound VIF ports. */
  function OfportSet(vifPorts: map<PortId, VifPort>): set<int>
  {
    set id | id in vifPorts :: vifPorts[id].ofport
  }

  /** The elements of a sequence. */
  function Elements(s: seq<int>): set<int>
  {
    set x | x in s
  }

  // ------------------------------------------------ the tunnel registry

  /** The registry of one tunnel type without the entries that point to the given ports. */
  function RegistryWithout(registry: map<string, int>, ofports: set<int>): (r: map<string, int>)
    ensures forall ip :: ip in r <==> ip in registry && registry[ip] !in ofports
    ensures forall ip :: ip in r ==> r[ip] == registry[ip]
  {
    map ip | ip in registry && registry[ip] !in ofports :: registry[ip]
  }

  /** Removing one port after a set of ports is removing the set with that port. */
  lemma RegistryWithoutStep(registry: map<string, int>, done: set<int>, ofport: int)
    ensures RegistryWithout(RegistryWithout(registry, done), {ofport}) == RegistryWithout(registry, done + {ofport})
  {
    var l := RegistryWithout(RegistryWithout(registry, done), {ofport});
    var r := RegistryWithout(registry, done + {ofport});
    assert l.Keys == r.Keys;
  }

  /** Removing no port leaves the registry as it is. */
  lemma RegistryWithoutNothing(registry: map<string, int>)
    ensures RegistryWithout(registry, {}) == registry
  {
  }

  /**
   * A tunnel port recorded by setup_tunnel_port and then cleaned up leaves
   * no entry for its remote host, and the rest of the registry as cleaning
   * up would have left it anyway.
   */
  lemma SetupCleanupRoundTrip(registry: map<string, int>, remoteIp: string, ofport: int)
    ensures RegistryWithout(registry[remoteIp := ofport], {ofport}) == RegistryWithout(registry, {ofport}) - {remoteIp}
    ensures remoteIp !in RegistryWithout(registry[remoteIp := ofport], {ofport})
  {
    var l := RegistryWithout(registry[remoteIp := ofport], {ofport});
    var r := RegistryWithout(registry, {ofport}) - {remoteIp};
    assert l.Keys == r.Keys;
  }

  // ------------------------------------------------ flood sets and forwarding-database updates

  /** No network floods to the tunnel port. */
  predicate Unreferenced(m: map<NetId, LocalVlanMapping>, ofport: int)
  {
    forall n :: n in m ==> ofport !in m[n].tunOfports
  }

  /** The same networks with the same records, except perhaps for their flood sets. */
  ghost predicate SameButFloodSets(m1: map<NetId, LocalVlanMapping>, m2: map<NetId, LocalVlanMapping>)
  {
    && m1.Keys == m2.Keys
    && forall n :: n in m1 ==> m2[n] == m1[n].(tunOfports := m2[n].tunOfports)
  }

  /** Only the flood sets change, and none loses a port. */
  ghost predicate FloodSetsGrow(m1: map<NetId, LocalVlanMapping>, m2: map<NetId, LocalVlanMapping>)
  {
    SameButFloodSets(m1, m2) && forall n :: n in m1 ==> m1[n].tunOfports <= m2[n].tunOfports
  }

  /** Only the flood sets change, and none gains a port. */
  ghost predicate FloodSetsShrink(m1: map<NetId, LocalVlanMapping>, m2: map<NetId, LocalVlanMapping>)
  {
    SameButFloodSets(m1, m2) && forall n :: n in m1 ==> m2[n].tunOfports <= m1[n].tunOfports
  }

  /** The networks with one network's flood set replaced. */
  function WithFlood(m: map<NetId, LocalVlanMapping>, net: NetId, flood: set<int>): (r: map<NetId, LocalVlanMapping>)
    requires net in m
    ensures r.Keys == m.Keys && net in r && r[net].tunOfports == flood
  {
    m[net := m[net].(tunOfports := flood)]
  }

  /** Replacing one flood set changes only that set; replacing it twice is replacing it once; replacing it by itself changes nothing. */
  lemma WithFloodSpec(m: map<NetId, LocalVlanMapping>, net: NetId, flood: set<int>, flood2: set<int>)
    requires net in m
    ensures SameButFloodSets(m, WithFlood(m, net, flood))
    ensures m[net].tunOfports <= flood ==> FloodSetsGrow(m, WithFlood(m, net, flood))
    ensures flood <= m[net].tunOfports ==> FloodSetsShrink(m, WithFlood(m, net, flood))
    ensures WithFlood(WithFlood(m, net, flood), net, flood2) == WithFlood(m, net, flood2)
    ensures WithFlood(m, net, m[net].tunOfports) == m
  {
  }

  /** Changing flood sets alone keeps every tag accounted for once. */
  lemma FloodSetsKeepTags(pool: set<int>, m1: map<NetId, LocalVlanMapping>, m2: map<NetId, LocalVlanMapping>)
    requires TagsConserved(pool, m1) && SameButFloodSets(m1, m2)
    ensures TagsConserved(pool, m2)
  {
    assert MappedTags(m1) == MappedTags(m2) by {
      forall t | t in MappedTags(m2) ensures t in MappedTags(m1) {
        var n :| n in m2 && m2[n].vlan == t;
        assert m1[n].vlan == t;
      }
      forall t | t in MappedTags(m1) ensures t in MappedTags(m2) {
        var n :| n in m1 && m1[n].vlan == t;
        assert m2[n].vlan == t;
      }
    }
  }

  /**
   * While forwarding entries are added, registry entries survive and keep
   * their port unless it was 0 (which setup_tunnel_port's caller takes for
   * "no port"), and the agent's own address is never added.
   */
  ghost predicate RegistriesGrow(r1: map<TunnelType, map<string, int>>, r2: map<TunnelType, map<string, int>>, localIp: string)
  {
    && r1.Keys == r2.Keys
    && (forall k, ip :: k in r1 && ip in r1[k] ==> ip in r2[k] && (r1[k][ip] != 0 ==> r2[k][ip] == r1[k][ip]))
    && (forall k :: k in r1 && localIp !in r1[k] ==> localIp !in r2[k])
  }

  /**
   * While forwarding entries are removed, registry entries only go, and only
   * those whose tunnel port no network floods to any more.
   */
  ghost predicate RegistriesShrink(r1: map<TunnelType, map<string, int>>, r2: map<TunnelType, map<string, int>>,
                                   m: map<NetId, LocalVlanMapping>)
  {
    && r1.Keys == r2.Keys
    && (forall k, ip :: k in r2 && ip in r2[k] ==> ip in r1[k] && r2[k][ip] == r1[k][ip])
    && (forall k, ip :: k in r1 && ip in r1[k] && ip !in r2[k] ==> Unreferenced(m, r1[k][ip]))
  }

  /** Growth of flood sets and of registries composes over successive updates. */
  lemma GrowTrans(m1: map<NetId, LocalVlanMapping>, m2: map<NetId, LocalVlanMapping>, m3: map<NetId, LocalVlanMapping>,
                  r1: map<TunnelType, map<string, int>>, r2: map<TunnelType, map<string, int>>,
                  r3: map<TunnelType, map<string, int>>, localIp: string)
    requires FloodSetsGrow(m1, m2) && FloodSetsGrow(m2, m3)
    requires RegistriesGrow(r1, r2, localIp) && RegistriesGrow(r2, r3, localIp)
    ensures FloodSetsGrow(m1, m3) && RegistriesGrow(r1, r3, localIp)
  {
  }

  /**
   * Shrinking composes too: a registry entry dropped earlier points to a
   * port that stays unreferenced, since flood sets only shrink afterwards.
   */
  lemma ShrinkTrans(m1: map<NetId, LocalVlanMapping>, m2: map<NetId, LocalVlanMapping>, m3: map<NetId, LocalVlanMapping>,
                    r1: map<TunnelType, map<string, int>>, r2: map<TunnelType, map<string, int>>,
                    r3: map<TunnelType, map<string, int>>)
    requires FloodSetsShrink(m1, m2) && FloodSetsShrink(m2, m3)
    requires RegistriesShrink(r1, r2, m2) && RegistriesShrink(r2, r3, m3)
    ensures FloodSetsShrink(m1, m3) && RegistriesShrink(r1, r3, m3)
  {
    forall k, ip | k in r1 && ip in r1[k] && ip !in r3[k] ensures Unreferenced(m3, r1[k][ip]) {
      if ip in r2[k] {
        assert Unreferenced(m3, r2[k][ip]);
      } else {
        assert Unreferenced(m2, r1[k][ip]);
        forall n | n in m3 ensures r1[k][ip] !in m3[n].tunOfports {
          assert r1[k][ip] !in m2[n].tunOfports;
        }
      }
    }
  }

  /**
   * One more forwarding entry of a host removed from a network: the
   * network's flood set loses the host's port once the flooding entry has
   * been seen, and shrinking carries on from the start.
   */
  lemma RemovalStep(m0: map<NetId, LocalVlanMapping>, m1: map<NetId, LocalVlanMapping>, m2: map<NetId, LocalVlanMapping>,
                    r0: map<TunnelType, map<string, int>>, r1: map<TunnelType, map<string, int>>,
                    r2: map<TunnelType, map<string, int>>, net: NetId, ofport: int, seen: bool, flooding: bool)
    requires net in m0
    requires m1 == WithFlood(m0, net, m0[net].tunOfports - (if seen then {ofport} else {}))
    requires FloodSetsShrink(m0, m1) && RegistriesShrink(r0, r1, m1)
    requires m2 == WithFlood(m1, net, m1[net].tunOfports - (if flooding then {ofport} else {}))
    requires RegistriesShrink(r1, r2, m2)
    ensures m2 == WithFlood(m0, net, m0[net].tunOfports - (if seen || flooding then {ofport} else {}))
    ensures FloodSetsShrink(m0, m2) && RegistriesShrink(r0, r2, m2)
  {
    WithFloodSpec(m1, net, m1[net].tunOfports - (if flooding then {ofport} else {}), m1[net].tunOfports);
    ShrinkTrans(m0, m1, m2, r0, r1, r2);
    var f := m0[net].tunOfports - (if seen || flooding then {ofport} else {});
    assert m2[net] == m0[net].(tunOfports := f);
  }

  /** Nothing changing is both growth and shrinking. */
  lemma NoChange(m: map<NetId, LocalVlanMapping>, r: map<TunnelType, map<string, int>>, localIp: string)
    ensures FloodSetsGrow(m, m) && FloodSetsShrink(m, m)
    ensures RegistriesGrow(r, r, localIp) && RegistriesShrink(r, r, m)
  {
  }
}
