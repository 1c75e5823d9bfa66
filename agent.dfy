/**
 * The OpenFlow agent (OFANeutronAgent): its tag pool, its per-network
 * records, its tunnel-port registry and the integration bridge it drives,
 * with the RPC handlers and the steps of its polling loop as methods that
 * change them. What the plugin, ovsdb and the switch answer comes in as
 * parameters.
 */
module Agent {
  import opened Wrappers
  import opened Constants
  import opened Tables
  import opened OpenFlow
  import opened Flows
  import opened FlowProperties
  import opened AgentState
  import opened TunnelNames
  import opened AgentFlows
  import opened PortScan
  import opened Iteration

  // ------------------------------------------------ reference-counted tunnel ports

  /**
   * The tunnel ports a reclaimed network lets go of: with l2 population on,
   * those of its flood set that no remaining network floods to.
   */
  function ReleasedPorts(rest: map<NetId, LocalVlanMapping>, networkType: NetworkType, flood: set<int>, cleanup: bool): set<int>
  {
    if cleanup && networkType.TunnelNet? then set o | o in flood && Unreferenced(rest, o) else {}
  }

  /** The remote hosts whose registry entries point to one of the given OpenFlow ports. */
  function EntriesTo(registry: map<string, int>, ofports: set<int>): set<string>
  {
    set ip | ip in registry && registry[ip] in ofports
  }

  /** The names of the tunnel ports to the given remote hosts; a host whose address does not parse has none. */
  function PortNames(kind: TunnelType, ips: set<string>): set<string>
  {
    set ip | ip in ips && TunnelPortName(kind, ip).Some? :: TunnelPortName(kind, ip).value
  }

  /** The names of the tunnel ports deleted when the given OpenFlow ports are cleaned up. */
  function DeletedNames(kind: TunnelType, registry: map<string, int>, ofports: set<int>): set<string>
  {
    PortNames(kind, EntriesTo(registry, ofports))
  }

  /** The registry part-way through cleaning up a port: the entries not yet visited are all still there. */
  function PendingRegistry(registry: map<string, int>, ofport: int, unvisited: set<string>): map<string, int>
  {
    map ip | ip in registry && (ip in unvisited || registry[ip] != ofport) :: registry[ip]
  }

  /** The names of the ports to two groups of hosts are the names of the ports to each. */
  lemma PortNamesUnion(kind: TunnelType, a: set<string>, b: set<string>)
    ensures PortNames(kind, a + b) == PortNames(kind, a) + PortNames(kind, b)
  {
    forall n | n in PortNames(kind, a + b) ensures n in PortNames(kind, a) + PortNames(kind, b) {
      var ip :| ip in a + b && TunnelPortName(kind, ip).Some? && TunnelPortName(kind, ip).value == n;
      if ip in a {
        assert n in PortNames(kind, a);
      } else {
        assert n in PortNames(kind, b);
      }
    }
  }

  /** Cleaning up one more port after a set of ports deletes the names of the set with that port. */
  lemma DeletedNamesStep(kind: TunnelType, registry: map<string, int>, done: set<int>, ofport: int)
    ensures DeletedNames(kind, RegistryWithout(registry, done), {ofport}) + DeletedNames(kind, registry, done)
         == DeletedNames(kind, registry, done + {ofport})
  {
    assert EntriesTo(RegistryWithout(registry, done), {ofport}) + EntriesTo(registry, done)
        == EntriesTo(registry, done + {ofport});
    PortNamesUnion(kind, EntriesTo(RegistryWithout(registry, done), {ofport}), EntriesTo(registry, done));
  }

  /** Before any entry is visited the registry is whole; after all are, the entries that point to the port are gone. */
  lemma PendingEnds(registry: map<string, int>, ofport: int)
    ensures PendingRegistry(registry, ofport, registry.Keys) == registry
    ensures PendingRegistry(registry, ofport, {}) == RegistryWithout(registry, {ofport})
  {
  }

  /** Visiting one more registry entry while cleaning up a port drops it exactly when it points to the port. */
  lemma PendingVisit(registry: map<string, int>, ofport: int, unvisited: set<string>, ip: string)
    requires ip in unvisited && ip in registry
    ensures registry[ip] == ofport ==>
      PendingRegistry(registry, ofport, unvisited - {ip}) == PendingRegistry(registry, ofport, unvisited) - {ip}
    ensures registry[ip] != ofport ==>
      PendingRegistry(registry, ofport, unvisited - {ip}) == PendingRegistry(registry, ofport, unvisited)
  {
  }

  /** Taking one more port off the to-do list of a reclaim adds it to the released ports handled so far when it is released. */
  lemma ReleasedVisit(released: set<int>, flood: set<int>, todo: set<int>, ofport: int)
    requires ofport in todo && todo <= flood
    ensures released * (flood - (todo - {ofport}))
         == released * (flood - todo) + (if ofport in released then {ofport} else {})
  {
  }

  /**
   * The loop of cleanup_tunnel_port over one registry: the entries that
   * point to the port are dropped, and the remote hosts they were for
   * returned, so that their tunnel ports are deleted.
   */
  method ScanRegistry(registry: map<string, int>, tunOfport: int)
    returns (pending: map<string, int>, matched: set<string>)
    ensures pending == RegistryWithout(registry, {tunOfport})
    ensures matched == EntriesTo(registry, {tunOfport})
  {
    pending := registry;
    matched := {};
    var unvisited := registry.Keys;
    PendingEnds(registry, tunOfport);
    while unvisited != {}
      invariant unvisited <= registry.Keys
      invariant pending == PendingRegistry(registry, tunOfport, unvisited)
      invariant matched == EntriesTo(registry, {tunOfport}) - unvisited
      decreases |unvisited|
    {
      var remoteIp := ChooseId(unvisited);
      PendingVisit(registry, tunOfport, unvisited, remoteIp);
      if registry[remoteIp] == tunOfport {
        matched := matched + {remoteIp};
        pending := pending - {remoteIp};
      }
      unvisited := unvisited - {remoteIp};
    }
  }

  /** Whether some network floods to the tunnel port (the first half of cleanup_tunnel_port). */
  method TunnelPortInUse(m: map<NetId, LocalVlanMapping>, tunOfport: int) returns (used: bool)
    ensures used <==> !Unreferenced(m, tunOfport)
  {
    used := false;
    var nets := m.Keys;
    while nets != {} && !used
      invariant nets <= m.Keys
      invariant used ==> !Unreferenced(m, tunOfport)
      invariant !used ==> forall n :: n in m && n !in nets ==> tunOfport !in m[n].tunOfports
      decreases |nets|
    {
      var n := ChooseId(nets);
      if tunOfport in m[n].tunOfports {
        used := true;
      }
      nets := nets - {n};
    }
  }

  /**
   * cleanup_tunnel_port run on each port of a reclaimed network's flood
   * set, on one registry: the entries that point to the ports no remaining
   * network floods to are dropped, and the names of their tunnel ports
   * returned for deletion.
   */
  method ReleaseFromRegistry(rest: map<NetId, LocalVlanMapping>, registry: map<string, int>, flood: set<int>, kind: TunnelType)
    returns (after: map<string, int>, names: set<string>)
    ensures after == RegistryWithout(registry, ReleasedPorts(rest, TunnelNet(kind), flood, true))
    ensures names == DeletedNames(kind, registry, ReleasedPorts(rest, TunnelNet(kind), flood, true))
  {
    ghost var released := ReleasedPorts(rest, TunnelNet(kind), flood, true);
    after := registry;
    names := {};
    var todo := flood;
    ReleaseStart(registry, kind, released, flood);
    while todo != {}
      invariant todo <= flood
      invariant after == RegistryWithout(registry, released * (flood - todo))
      invariant names == DeletedNames(kind, registry, released * (flood - todo))
      decreases |todo|
    {
      var ofport := Choose(todo);
      ghost var done := released * (flood - todo);
      ReleasedVisit(released, flood, todo, ofport);
      var used := TunnelPortInUse(rest, ofport);
      if !used {
        var pending, matched := ScanRegistry(after, ofport);
        RegistryWithoutStep(registry, done, ofport);
        DeletedNamesStep(kind, registry, done, ofport);
        after := pending;
        names := names + PortNames(kind, matched);
      }
      todo := todo - {ofport};
    }
    assert released * (flood - todo) == released;
  }

  /** Before any port of the flood set is handled, nothing is released. */
  lemma ReleaseStart(registry: map<string, int>, kind: TunnelType, released: set<int>, flood: set<int>)
    ensures RegistryWithout(registry, released * (flood - flood)) == registry
    ensures DeletedNames(kind, registry, released * (flood - flood)) == {}
  {
    assert released * (flood - flood) == {};
    RegistryWithoutNothing(registry);
  }

  /** The registries after a network is reclaimed. */
  function RegistriesAfterReclaim(regs: map<TunnelType, map<string, int>>, networkType: NetworkType, released: set<int>)
    : map<TunnelType, map<string, int>>
  {
    if networkType.TunnelNet? && networkType.kind in regs then
      regs[networkType.kind := RegistryWithout(regs[networkType.kind], released)]
    else regs
  }

  /** The tunnel port names deleted when a network is reclaimed. */
  function NamesAfterReclaim(regs: map<TunnelType, map<string, int>>, networkType: NetworkType, released: set<int>): set<string>
  {
    if networkType.TunnelNet? && networkType.kind in regs then
      DeletedNames(networkType.kind, regs[networkType.kind], released)
    else {}
  }

  /** Releasing no port changes no registry and deletes no port. */
  lemma ReleaseNothing(regs: map<TunnelType, map<string, int>>, networkType: NetworkType)
    ensures RegistriesAfterReclaim(regs, networkType, {}) == regs
    ensures NamesAfterReclaim(regs, networkType, {}) == {}
  {
    if networkType.TunnelNet? && networkType.kind in regs {
      RegistryWithoutNothing(regs[networkType.kind]);
    }
  }

  /**
   * Reclaiming a tunnel network removes a registry entry exactly when
   * l2 population is on, the entry's port is in the network's flood set and
   * no remaining network floods to it; every other entry stays as it was.
   */
  lemma ReclaimRegistrySpec(regs: map<TunnelType, map<string, int>>, rest: map<NetId, LocalVlanMapping>,
                            lvm: LocalVlanMapping, cleanup: bool)
    requires lvm.networkType.TunnelNet? && lvm.networkType.kind in regs
    ensures RegistriesAfterReclaim(regs, lvm.networkType, ReleasedPorts(rest, lvm.networkType, lvm.tunOfports, cleanup)).Keys == regs.Keys
    ensures var kind := lvm.networkType.kind;
      var after := RegistriesAfterReclaim(regs, lvm.networkType, ReleasedPorts(rest, lvm.networkType, lvm.tunOfports, cleanup))[kind];
      forall ip :: ip in regs[kind] ==>
        (ip !in after <==> cleanup && regs[kind][ip] in lvm.tunOfports && Unreferenced(rest, regs[kind][ip]))
    ensures var kind := lvm.networkType.kind;
      var after := RegistriesAfterReclaim(regs, lvm.networkType, ReleasedPorts(rest, lvm.networkType, lvm.tunOfports, cleanup))[kind];
      forall ip :: ip in after ==> ip in regs[kind] && after[ip] == regs[kind][ip]
    ensures forall k :: k in regs && k != lvm.networkType.kind ==>
      RegistriesAfterReclaim(regs, lvm.networkType, ReleasedPorts(rest, lvm.networkType, lvm.tunOfports, cleanup))[k] == regs[k]
  {
  }

  // ------------------------------------------------ the plugin's and the switch's answers

  /** A switch answer looked up by key; a key it has no answer for is a failed call. */
  function Lookup(answers: map<string, Option<int>>, key: string): Option<int>
  {
    if key in answers then answers[key] else None
  }

  /**
   * The tunnel port the registry holds for a remote host, 0 when it holds
   * none; fdb_add and fdb_remove take 0 for "no port" (`if not ofport`).
   */
  function KnownPort(registry: map<string, int>, remoteIp: string): int
  {
    if remoteIp in registry then registry[remoteIp] else 0
  }

  /** What setup_tunnel_port returns for the switch's answer: the port, or 0 when it is missing or negative. */
  function SetupResult(addedOfport: Option<int>): int
  {
    if addedOfport.Some? && addedOfport.value >= 0 then addedOfport.value else 0
  }

  /** The registries after setup_tunnel_port with the switch's answer. */
  function RegistriesAfterSetup(regs: map<TunnelType, map<string, int>>, kind: TunnelType, remoteIp: string,
                                addedOfport: Option<int>): map<TunnelType, map<string, int>>
    requires kind in regs
  {
    if addedOfport.Some? && addedOfport.value >= 0 then regs[kind := regs[kind][remoteIp := addedOfport.value]] else regs
  }

  /**
   * fdb_add and fdb_remove raise KeyError (tun_ofports has no entry for the
   * type) when they meet the network n: a network of the agent that is not
   * a tunnel network and has a remote host other than this one.
   */
  predicate KeyErrorAt(m: map<NetId, LocalVlanMapping>, fdb: map<NetId, map<string, seq<FdbEntry>>>, localIp: string, n: NetId)
  {
    n in fdb && n in m && !m[n].networkType.TunnelNet? && fdb[n].Keys - {localIp} != {}
  }

  /** Some network of the message makes fdb_add and fdb_remove raise KeyError. */
  predicate FdbKeyError(m: map<NetId, LocalVlanMapping>, fdb: map<NetId, map<string, seq<FdbEntry>>>, localIp: string)
  {
    exists n :: n in fdb && KeyErrorAt(m, fdb, localIp, n)
  }

  /** Some remote host of the message sent the flooding entry (the only entry whose removal can raise KeyError). */
  predicate FloodingAnnounced(fdb: map<NetId, map<string, seq<FdbEntry>>>, localIp: string)
  {
    exists n, h :: n in fdb && h in fdb[n] && h != localIp && FLOODING_ENTRY in fdb[n][h]
  }

  /**
   * The tunnel ports fdb_add adds to a network's flood set for the given
   * announced hosts: the registered port of each host that sent the
   * flooding entry and has one.
   */
  function FloodPortsOf(hosts: map<string, seq<FdbEntry>>, done: set<string>, registry: map<string, int>): set<int>
  {
    set ip | ip in done && ip in hosts && FLOODING_ENTRY in hosts[ip] && KnownPort(registry, ip) != 0 :: KnownPort(registry, ip)
  }

  /** One more host: its port joins FloodPortsOf when it sent the flooding entry and has a port. */
  lemma FloodPortsOfStep(hosts: map<string, seq<FdbEntry>>, done: set<string>, h: string,
                         reg1: map<string, int>, reg2: map<string, int>)
    requires h !in done
    requires forall ip :: ip in done ==> KnownPort(reg2, ip) == KnownPort(reg1, ip)
    ensures FloodPortsOf(hosts, done + {h}, reg2) ==
      FloodPortsOf(hosts, done, reg1) + (if h in hosts && FLOODING_ENTRY in hosts[h] && KnownPort(reg2, h) != 0 then {KnownPort(reg2, h)} else {})
  {
    var l := FloodPortsOf(hosts, done + {h}, reg2);
    var r := FloodPortsOf(hosts, done, reg1) + (if h in hosts && FLOODING_ENTRY in hosts[h] && KnownPort(reg2, h) != 0 then {KnownPort(reg2, h)} else {});
    forall o | o in l ensures o in r {
      var ip :| ip in done + {h} && ip in hosts && FLOODING_ENTRY in hosts[ip] && KnownPort(reg2, ip) != 0 && o == KnownPort(reg2, ip);
      if ip != h {
        assert KnownPort(reg1, ip) == o;
      }
    }
    forall o | o in FloodPortsOf(hosts, done, reg1) ensures o in l {
      var ip :| ip in done && ip in hosts && FLOODING_ENTRY in hosts[ip] && KnownPort(reg1, ip) != 0 && o == KnownPort(reg1, ip);
      assert KnownPort(reg2, ip) == o;
    }
  }

  /**
   * Part-way through fdb_add's loop over one tunnel network's hosts, from
   * the records m0 and registries r0 to m and r: the network's flood set
   * has gained the ports of the hosts done that sent the flooding entry,
   * and nothing else.
   */
  ghost predicate AddingFrom(m0: map<NetId, LocalVlanMapping>, r0: map<TunnelType, map<string, int>>, net: NetId,
                             kind: TunnelType, hosts: map<string, seq<FdbEntry>>, done: set<string>, localIp: string,
                             m: map<NetId, LocalVlanMapping>, r: map<TunnelType, map<string, int>>)
  {
    && net in m0 && kind in r
    && m == WithFlood(m0, net, m0[net].tunOfports + FloodPortsOf(hosts, done, r[kind]))
    && FloodSetsGrow(m0, m)
    && RegistriesGrow(r0, r, localIp)
  }

  /** Set union regroups. */
  lemma UnionAssoc(a: set<int>, b: set<int>, c: set<int>)
    ensures a + b + c == a + (b + c)
  {
  }

  /** Removing two sets in turn removes their union. */
  lemma DiffAssoc(a: set<int>, b: set<int>, c: set<int>)
    ensures a - b - c == a - (b + c)
  {
  }

  /** One FdbAddHost carries AddingFrom over one more host. */
  lemma AddingFromStep(m0: map<NetId, LocalVlanMapping>, r0: map<TunnelType, map<string, int>>, net: NetId,
                       kind: TunnelType, hosts: map<string, seq<FdbEntry>>, done: set<string>, localIp: string,
                       h: string, answer: Option<int>, ofport: int,
                       m1: map<NetId, LocalVlanMapping>, r1: map<TunnelType, map<string, int>>,
                       m2: map<NetId, LocalVlanMapping>, r2: map<TunnelType, map<string, int>>)
    requires AddingFrom(m0, r0, net, kind, hosts, done, localIp, m1, r1)
    requires h in hosts && h !in done && net in m1
    requires var known := KnownPort(r1[kind], h);
      var setup := known == 0 && TunnelPortName(kind, h).Some?;
      && ofport == (if known != 0 then known else if setup then SetupResult(answer) else 0)
      && r2 == (if setup then RegistriesAfterSetup(r1, kind, h, answer) else r1)
    requires ofport == 0 ==> m2 == m1
    requires ofport != 0 ==> m2 == WithFlood(m1, net, m1[net].tunOfports + (if FLOODING_ENTRY in hosts[h] then {ofport} else {}))
    requires RegistriesGrow(r1, r2, localIp)
    ensures AddingFrom(m0, r0, net, kind, hosts, done + {h}, localIp, m2, r2)
  {
    SetupKnownPorts(r1, r2, kind, h, answer, ofport);
    FloodPortsOfStep(hosts, done, h, r1[kind], r2[kind]);
    var gain := if FLOODING_ENTRY in hosts[h] && ofport != 0 then {ofport} else {};
    var p1 := FloodPortsOf(hosts, done, r1[kind]);
    assert FloodPortsOf(hosts, done + {h}, r2[kind]) == p1 + gain;
    assert m1[net].tunOfports + {} == m1[net].tunOfports;
    WithFloodSpec(m1, net, m1[net].tunOfports + gain, m1[net].tunOfports);
    assert m2 == WithFlood(m1, net, m1[net].tunOfports + gain);
    WithFloodSpec(m0, net, m0[net].tunOfports + p1, m0[net].tunOfports + p1 + gain);
    UnionAssoc(m0[net].tunOfports, p1, gain);
    GrowTrans(m0, m1, m2, r0, r1, r2, localIp);
  }

  /** setup_tunnel_port as fdb_add calls it changes the registered port of the one host, to the port it yields. */
  lemma SetupKnownPorts(r1: map<TunnelType, map<string, int>>, r2: map<TunnelType, map<string, int>>,
                        kind: TunnelType, h: string, answer: Option<int>, ofport: int)
    requires kind in r1
    requires var known := KnownPort(r1[kind], h);
      var setup := known == 0 && TunnelPortName(kind, h).Some?;
      && ofport == (if known != 0 then known else if setup then SetupResult(answer) else 0)
      && r2 == (if setup then RegistriesAfterSetup(r1, kind, h, answer) else r1)
    ensures kind in r2 && KnownPort(r2[kind], h) == ofport
    ensures forall ip :: ip != h ==> KnownPort(r2[kind], ip) == KnownPort(r1[kind], ip)
  {
  }

  /**
   * Part-way through fdb_remove's loop over one tunnel network's hosts, from
   * the records m0 and registries r0 to m and r: the network's flood set
   * has lost the ports (registered at the start) of the hosts done that
   * sent the flooding entry, and nothing else; registries have only lost
   * entries for unreferenced ports.
   */
  ghost predicate RemovingFrom(m0: map<NetId, LocalVlanMapping>, r0: map<TunnelType, map<string, int>>, net: NetId,
                               kind: TunnelType, hosts: map<string, seq<FdbEntry>>, done: set<string>,
                               m: map<NetId, LocalVlanMapping>, r: map<TunnelType, map<string, int>>)
  {
    && net in m0 && kind in r0
    && m == WithFlood(m0, net, m0[net].tunOfports - FloodPortsOf(hosts, done, r0[kind]))
    && FloodSetsShrink(m0, m)
    && RegistriesShrink(r0, r, m)
  }

  /**
   * One FdbRemoveHost that succeeds carries RemovingFrom over one more
   * host: the port it removes is the one registered at the start, or, when
   * cleanup has dropped that entry meanwhile, one no network floods to.
   */
  lemma RemovingFromStep(m0: map<NetId, LocalVlanMapping>, r0: map<TunnelType, map<string, int>>, net: NetId,
                         kind: TunnelType, hosts: map<string, seq<FdbEntry>>, done: set<string>, h: string,
                         m1: map<NetId, LocalVlanMapping>, r1: map<TunnelType, map<string, int>>,
                         m2: map<NetId, LocalVlanMapping>, r2: map<TunnelType, map<string, int>>)
    requires RemovingFrom(m0, r0, net, kind, hosts, done, m1, r1)
    requires h in hosts && h !in done && kind in r1 && net in m1
    requires var known := KnownPort(r1[kind], h);
      && (known == 0 ==> m2 == m1 && r2 == r1)
      && (known != 0 ==> m2 == WithFlood(m1, net, m1[net].tunOfports - (if FLOODING_ENTRY in hosts[h] then {known} else {})))
    requires RegistriesShrink(r1, r2, m2)
    ensures RemovingFrom(m0, r0, net, kind, hosts, done + {h}, m2, r2)
  {
    var known := KnownPort(r1[kind], h);
    var k0 := KnownPort(r0[kind], h);
    FloodPortsOfStep(hosts, done, h, r0[kind], r0[kind]);
    var p := FloodPortsOf(hosts, done, r0[kind]);
    var gain0 := if FLOODING_ENTRY in hosts[h] && k0 != 0 then {k0} else {};
    var gain1 := if FLOODING_ENTRY in hosts[h] && known != 0 then {known} else {};
    assert m1[net].tunOfports - {} == m1[net].tunOfports;
    WithFloodSpec(m1, net, m1[net].tunOfports - gain1, m1[net].tunOfports);
    assert m2 == WithFlood(m1, net, m1[net].tunOfports - gain1);
    assert m1[net].tunOfports - gain1 == m1[net].tunOfports - gain0 by {
      if h !in r1[kind] && h in r0[kind] {
        assert Unreferenced(m1, r0[kind][h]);
      }
    }
    WithFloodSpec(m0, net, m0[net].tunOfports - p, m0[net].tunOfports - p - gain0);
    DiffAssoc(m0[net].tunOfports, p, gain0);
    ShrinkTrans(m0, m1, m2, r0, r1, r2);
  }

  /** FloodPortsOf only grows while registered (non-zero) ports are kept. */
  lemma FloodPortsOfGrow(hosts: map<string, seq<FdbEntry>>, done: set<string>, reg1: map<string, int>, reg2: map<string, int>)
    requires forall ip :: ip in reg1 && reg1[ip] != 0 ==> ip in reg2 && reg2[ip] == reg1[ip]
    ensures FloodPortsOf(hosts, done, reg1) <= FloodPortsOf(hosts, done, reg2)
  {
    forall o | o in FloodPortsOf(hosts, done, reg1) ensures o in FloodPortsOf(hosts, done, reg2) {
      var ip :| ip in done && ip in hosts && FLOODING_ENTRY in hosts[ip] && KnownPort(reg1, ip) != 0 && o == KnownPort(reg1, ip);
      assert KnownPort(reg2, ip) == o;
    }
  }

  /**
   * A flood set that no dropped registry entry's port is in loses the same
   * ports whether FloodPortsOf is taken before or after the drop.
   */
  lemma FloodPortsOfDropped(hosts: map<string, seq<FdbEntry>>, done: set<string>, reg0: map<string, int>,
                            reg1: map<string, int>, flood: set<int>)
    requires forall ip :: ip in reg1 ==> ip in reg0 && reg1[ip] == reg0[ip]
    requires forall ip :: ip in reg0 && ip !in reg1 ==> reg0[ip] !in flood
    ensures flood - FloodPortsOf(hosts, done, reg1) == flood - FloodPortsOf(hosts, done, reg0)
  {
    var p0 := FloodPortsOf(hosts, done, reg0);
    var p1 := FloodPortsOf(hosts, done, reg1);
    forall o | o in p1 ensures o in p0 {
      var ip :| ip in done && ip in hosts && FLOODING_ENTRY in hosts[ip] && KnownPort(reg1, ip) != 0 && o == KnownPort(reg1, ip);
      assert KnownPort(reg0, ip) == o;
    }
    forall o | o in flood && o in p0 ensures o in p1 {
      var ip :| ip in done && ip in hosts && FLOODING_ENTRY in hosts[ip] && KnownPort(reg0, ip) != 0 && o == KnownPort(reg0, ip);
      assert ip in reg1;
      assert KnownPort(reg1, ip) == o;
    }
  }

  /**
   * fdb_add's bounds on one network's flood set after the message: it has
   * gained at least the ports the announced flooding hosts had at the start
   * (registries r0) and at most those they have at the end (registries r).
   */
  ghost predicate FloodBounds(l0: LocalVlanMapping, l: LocalVlanMapping, hosts: map<string, seq<FdbEntry>>, localIp: string,
                              r0: map<TunnelType, map<string, int>>, r: map<TunnelType, map<string, int>>)
    requires l0.networkType.TunnelNet?
  {
    var kind := l0.networkType.kind;
    && kind in r0 && kind in r
    && l0.tunOfports + FloodPortsOf(hosts, hosts.Keys - {localIp}, r0[kind]) <= l.tunOfports
    && l.tunOfports <= l0.tunOfports + FloodPortsOf(hosts, hosts.Keys - {localIp}, r[kind])
  }

  /**
   * Part-way through fdb_add's loop over the networks of a message, from
   * the records m0 and registries r0 to m and r, with the networks done
   * handled: flood sets and registries have only grown, the networks not
   * yet handled are untouched, and each tunnel network handled has gained
   * the ports of its announced flooding hosts.
   */
  ghost predicate MessageAddFrom(m0: map<NetId, LocalVlanMapping>, r0: map<TunnelType, map<string, int>>,
                                 fdb: map<NetId, map<string, seq<FdbEntry>>>, done: set<NetId>, localIp: string,
                                 m: map<NetId, LocalVlanMapping>, r: map<TunnelType, map<string, int>>)
  {
    && Gre in r0 && Vxlan in r0
    && FloodSetsGrow(m0, m) && RegistriesGrow(r0, r, localIp)
    && (forall n :: n in m0 && n !in done ==> m[n] == m0[n])
    && (forall n :: n in done && n in fdb && n in m0 && m0[n].networkType.TunnelNet? ==> FloodBounds(m0[n], m[n], fdb[n], localIp, r0, r))
  }

  /** One FdbAddNetwork that succeeds carries MessageAddFrom over one more network. */
  lemma MessageAddStep(m0: map<NetId, LocalVlanMapping>, r0: map<TunnelType, map<string, int>>,
                       fdb: map<NetId, map<string, seq<FdbEntry>>>, done: set<NetId>, localIp: string, net: NetId,
                       m1: map<NetId, LocalVlanMapping>, r1: map<TunnelType, map<string, int>>,
                       m2: map<NetId, LocalVlanMapping>, r2: map<TunnelType, map<string, int>>)
    requires MessageAddFrom(m0, r0, fdb, done, localIp, m1, r1)
    requires net in fdb && net !in done
    requires net in m0 && m0[net].networkType.TunnelNet? ==>
      AddingFrom(m1, r1, net, m0[net].networkType.kind, fdb[net], fdb[net].Keys - {localIp}, localIp, m2, r2)
    requires net !in m0 || !m0[net].networkType.TunnelNet? ==> m2 == m1 && r2 == r1
    ensures MessageAddFrom(m0, r0, fdb, done + {net}, localIp, m2, r2)
  {
    NoChange(m1, r1, localIp);
    GrowTrans(m0, m1, m2, r0, r1, r2, localIp);
    forall n | n in done && n in fdb && n in m0 && m0[n].networkType.TunnelNet?
      ensures FloodBounds(m0[n], m2[n], fdb[n], localIp, r0, r2)
    {
      var kind := m0[n].networkType.kind;
      assert FloodBounds(m0[n], m1[n], fdb[n], localIp, r0, r1);
      FloodPortsOfGrow(fdb[n], fdb[n].Keys - {localIp}, r1[kind], r2[kind]);
    }
    if net in m0 && m0[net].networkType.TunnelNet? {
      var kind := m0[net].networkType.kind;
      assert kind in r0 by {
        if kind == Gre {} else {}
      }
      FloodPortsOfGrow(fdb[net], fdb[net].Keys - {localIp}, r0[kind], r2[kind]);
      assert FloodBounds(m0[net], m2[net], fdb[net], localIp, r0, r2);
    }
  }

  /**
   * fdb_remove's effect on one network's flood set after the message: it
   * has lost the ports the announced flooding hosts had at the start
   * (registries r0), and nothing else.
   */
  ghost predicate FloodRemoved(l0: LocalVlanMapping, l: LocalVlanMapping, hosts: map<string, seq<FdbEntry>>, localIp: string,
                               r0: map<TunnelType, map<string, int>>)
    requires l0.networkType.TunnelNet?
  {
    var kind := l0.networkType.kind;
    kind in r0 && l.tunOfports == l0.tunOfports - FloodPortsOf(hosts, hosts.Keys - {localIp}, r0[kind])
  }

  /**
   * Part-way through fdb_remove's loop over the networks of a message, from
   * the records m0 and registries r0 to m and r, with the networks done
   * handled: flood sets have only shrunk, registries have only lost entries
   * for unreferenced ports, the networks not yet handled are untouched, and
   * each tunnel network handled has lost the ports of its announced
   * flooding hosts.
   */
  ghost predicate MessageRemoveFrom(m0: map<NetId, LocalVlanMapping>, r0: map<TunnelType, map<string, int>>,
                                    fdb: map<NetId, map<string, seq<FdbEntry>>>, done: set<NetId>, localIp: string,
                                    m: map<NetId, LocalVlanMapping>, r: map<TunnelType, map<string, int>>)
  {
    && Gre in r0 && Vxlan in r0
    && FloodSetsShrink(m0, m) && RegistriesShrink(r0, r, m)
    && (forall n :: n in m0 && n !in done ==> m[n] == m0[n])
    && (forall n :: n in done && n in fdb && n in m0 && m0[n].networkType.TunnelNet? ==> FloodRemoved(m0[n], m[n], fdb[n], localIp, r0))
  }

  /**
   * What fdb_remove keeps however far it gets: flood sets only shrink,
   * registries only lose entries for unreferenced ports and networks not in
   * the message keep their records.
   */
  ghost predicate MessageShrinks(m0: map<NetId, LocalVlanMapping>, r0: map<TunnelType, map<string, int>>,
                                 fdb: map<NetId, map<string, seq<FdbEntry>>>,
                                 m: map<NetId, LocalVlanMapping>, r: map<TunnelType, map<string, int>>)
  {
    && FloodSetsShrink(m0, m) && RegistriesShrink(r0, r, m)
    && (forall n :: n in m0 && n !in fdb ==> m[n] == m0[n])
  }

  /** One FdbRemoveNetwork that succeeds carries MessageRemoveFrom over one more network. */
  lemma MessageRemoveStep(m0: map<NetId, LocalVlanMapping>, r0: map<TunnelType, map<string, int>>,
                          fdb: map<NetId, map<string, seq<FdbEntry>>>, done: set<NetId>, localIp: string, net: NetId,
                          m1: map<NetId, LocalVlanMapping>, r1: map<TunnelType, map<string, int>>,
                          m2: map<NetId, LocalVlanMapping>, r2: map<TunnelType, map<string, int>>)
    requires MessageRemoveFrom(m0, r0, fdb, done, localIp, m1, r1)
    requires net in fdb && net !in done
    requires net in m0 && m0[net].networkType.TunnelNet? ==>
      RemovingFrom(m1, r1, net, m0[net].networkType.kind, fdb[net], fdb[net].Keys - {localIp}, m2, r2)
    requires net !in m0 || !m0[net].networkType.TunnelNet? ==> m2 == m1 && r2 == r1
    ensures MessageRemoveFrom(m0, r0, fdb, done + {net}, localIp, m2, r2)
  {
    NoChange(m1, r1, localIp);
    ShrinkTrans(m0, m1, m2, r0, r1, r2);
    if net in m0 && m0[net].networkType.TunnelNet? {
      var kind := m0[net].networkType.kind;
      assert kind in r0 by {
        if kind == Gre {} else {}
      }
      var hosts := fdb[net];
      assert m1[net] == m0[net];
      forall ip | ip in r0[kind] && ip !in r1[kind] ensures r0[kind][ip] !in m1[net].tunOfports {
        assert Unreferenced(m1, r0[kind][ip]);
      }
      FloodPortsOfDropped(hosts, hosts.Keys - {localIp}, r0[kind], r1[kind], m1[net].tunOfports);
      assert FloodRemoved(m0[net], m2[net], hosts, localIp, r0);
    }
  }

  /** Dropping a port that no network floods to from a registry only drops entries for unreferenced ports. */
  lemma CleanupShrinks(regs: map<TunnelType, map<string, int>>, kind: TunnelType, ofport: int, m: map<NetId, LocalVlanMapping>)
    requires kind in regs && Unreferenced(m, ofport)
    ensures RegistriesShrink(regs, regs[kind := RegistryWithout(regs[kind], {ofport})], m)
  {
  }

  /**
   * The flow half of _add_fdb_flow: install_tunnel_output with the
   * network's flood set (after the entry is added) for the flooding entry,
   * with the one tunnel port for a MAC.
   */
  method InstallFdbFlow(br: IntegrationBridge, kind: TunnelType, vlan: int, segmentationId: nat, entry: FdbEntry,
                        ofport: int, flood: set<int>) returns (floodPorts: seq<int>)
    requires br.Valid()
    modifies br
    ensures br.Valid()
    ensures entry == FLOODING_ENTRY ==> Elements(floodPorts) == flood && |floodPorts| == |flood|
    ensures entry != FLOODING_ENTRY ==> floodPorts == []
    ensures br.flows == Install(old(br.flows), AddFdbEntry(kind, vlan, segmentationId, entry, ofport, floodPorts))
  {
    if entry == FLOODING_ENTRY {
      floodPorts := IterationOrder(flood);
      br.InstallTunnelOutput(TunnelFlood(kind), vlan, segmentationId, floodPorts, true, map[]);
    } else {
      floodPorts := [];
      br.InstallTunnelOutput(TUNNEL_OUT, vlan, segmentationId, [ofport], false, map[EthDst := Mac(entry.mac)]);
    }
  }

  /**
   * The flow half of _del_fdb_flow for the flooding entry: the network's
   * TUNNEL_FLOOD entry is rewritten for the remaining flood set, or
   * deleted when it is empty.
   */
  method RewriteFloodEntry(br: IntegrationBridge, kind: TunnelType, vlan: int, segmentationId: nat, flood: set<int>)
    returns (floodPorts: seq<int>)
    requires br.Valid()
    modifies br
    ensures br.Valid()
    ensures Elements(floodPorts) == flood && |floodPorts| == |flood|
    ensures br.flows == Apply(old(br.flows), DelFdbCall(kind, vlan, FLOODING_ENTRY, segmentationId, floodPorts))
  {
    floodPorts := IterationOrder(flood);
    if |floodPorts| > 0 {
      br.InstallTunnelOutput(TunnelFlood(kind), vlan, segmentationId, floodPorts, true, map[]);
    } else {
      br.DeleteTunnelOutput(TunnelFlood(kind), vlan, map[]);
    }
  }

  /** One step of InstallHostEntries: entry i of the host goes in. */
  method InstallHostEntry(br: IntegrationBridge, kind: TunnelType, vlan: int, segmentationId: nat,
                          entries: seq<FdbEntry>, i: nat, ofport: int, before: set<int>) returns (flood: set<int>)
    requires br.Valid() && i < |entries|
    requires FdbInstalled(br.flows, kind, vlan, entries[..i], ofport, before)
    modifies br
    ensures br.Valid()
    ensures flood == before + (if entries[i] == FLOODING_ENTRY then {ofport} else {})
    ensures FdbInstalled(br.flows, kind, vlan, entries[..i + 1], ofport, flood)
  {
    ghost var t := br.flows;
    flood := before;
    if entries[i] == FLOODING_ENTRY {
      flood := flood + {ofport};
    }
    var floodPorts := InstallFdbFlow(br, kind, vlan, segmentationId, entries[i], ofport, flood);
    AddFdbStep(t, kind, vlan, segmentationId, entries, i, ofport, before, floodPorts);
  }

  /**
   * fdb_add's inner loop for one host: each entry's flow goes in, the
   * flooding entry adding the host's port to the flood set first.
   */
  method InstallHostEntries(br: IntegrationBridge, kind: TunnelType, vlan: int, segmentationId: nat,
                            entries: seq<FdbEntry>, ofport: int, flood0: set<int>) returns (flood: set<int>)
    requires br.Valid()
    modifies br
    ensures br.Valid()
    ensures flood == flood0 + (if FLOODING_ENTRY in entries then {ofport} else {})
    ensures FdbInstalled(br.flows, kind, vlan, entries, ofport, flood)
  {
    flood := flood0;
    assert flood0 + {} == flood0;
    for i := 0 to |entries|
      invariant br.Valid()
      invariant flood == flood0 + (if FLOODING_ENTRY in entries[..i] then {ofport} else {})
      invariant FdbInstalled(br.flows, kind, vlan, entries[..i], ofport, flood)
    {
      flood := InstallHostEntry(br, kind, vlan, segmentationId, entries, i, ofport, flood);
      assert entries[..i + 1] == entries[..i] + [entries[i]];
    }
    assert entries[..|entries|] == entries;
  }

  /**
   * Part-way through removing one host's entries from a network, from the
   * records m0 and registries r0 to the records m, registries r and flow
   * table t: the host's port has left the flood set if the flooding entry
   * was among those done, the entries done are gone, flood sets have only
   * shrunk and registries have only lost entries for unreferenced ports.
   */
  ghost predicate RemovalFrom(m0: map<NetId, LocalVlanMapping>, r0: map<TunnelType, map<string, int>>, net: NetId,
                              kind: TunnelType, ofport: int, done: seq<FdbEntry>,
                              m: map<NetId, LocalVlanMapping>, r: map<TunnelType, map<string, int>>, t: FlowTable)
  {
    && net in m0
    && m == WithFlood(m0, net, m0[net].tunOfports - (if FLOODING_ENTRY in done then {ofport} else {}))
    && FdbRemoved(t, kind, m0[net].vlan, done, m[net].tunOfports)
    && FloodSetsShrink(m0, m)
    && RegistriesShrink(r0, r, m)
  }

  /** One _del_fdb_flow that succeeds carries RemovalFrom over one more entry. */
  lemma RemovalFromStep(m0: map<NetId, LocalVlanMapping>, r0: map<TunnelType, map<string, int>>, net: NetId,
                        kind: TunnelType, ofport: int, entries: seq<FdbEntry>, i: nat,
                        m1: map<NetId, LocalVlanMapping>, r1: map<TunnelType, map<string, int>>, t1: FlowTable,
                        floodPorts: seq<int>,
                        m2: map<NetId, LocalVlanMapping>, r2: map<TunnelType, map<string, int>>, t2: FlowTable)
    requires i < |entries| && net in m1
    requires RemovalFrom(m0, r0, net, kind, ofport, entries[..i], m1, r1, t1)
    requires entries[i] == FLOODING_ENTRY ==>
      && m2 == WithFlood(m1, net, m1[net].tunOfports - {ofport})
      && Elements(floodPorts) == m1[net].tunOfports - {ofport} && |floodPorts| == |m1[net].tunOfports - {ofport}|
    requires entries[i] != FLOODING_ENTRY ==> m2 == m1 && floodPorts == []
    requires t2 == Apply(t1, DelFdbCall(kind, m1[net].vlan, entries[i], m1[net].segmentationId, floodPorts))
    requires RegistriesShrink(r1, r2, m2)
    ensures RemovalFrom(m0, r0, net, kind, ofport, entries[..i + 1], m2, r2, t2)
  {
    assert entries[..i + 1] == entries[..i] + [entries[i]];
    var flooding := entries[i] == FLOODING_ENTRY;
    assert m1[net].tunOfports - {} == m1[net].tunOfports;
    WithFloodSpec(m1, net, m1[net].tunOfports, m1[net].tunOfports);
    assert m2 == WithFlood(m1, net, m1[net].tunOfports - (if flooding then {ofport} else {}));
    DelFdbStep(t1, kind, m1[net].vlan, m1[net].segmentationId, entries, i, m1[net].tunOfports, m2[net].tunOfports, floodPorts);
    RemovalStep(m0, m1, m2, r0, r1, r2, net, ofport, FLOODING_ENTRY in entries[..i], flooding);
  }

   /** Binding the first port of a network just recorded: the record gains that one port. */
  lemma FirstBinding(m0: map<NetId, LocalVlanMapping>, net: NetId, lvm: LocalVlanMapping, port: VifPort)
    requires lvm.vifPorts == map[]
    ensures var m1 := m0[net := lvm];
      m1[net := m1[net].(vifPorts := m1[net].vifPorts[port.vifId := port])] == m0[net := lvm.(vifPorts := map[port.vifId := port])]
  {
    assert lvm.vifPorts[port.vifId := port] == map[port.vifId := port];
  }

 // ------------------------------------------------ the agent

  class OfaAgent {
    const localIp: string
    const tunnelTypes: seq<TunnelType>
    const enableTunneling: bool
    const l2Pop: bool
    /** The integration bridge's port to each physical network's bridge. */
    const intOfports: map<string, int>
    const intBr: IntegrationBridge

    var availableLocalVlans: set<int>
    var localVlanMap: map<NetId, LocalVlanMapping>
    /** tun_ofports[type][remote_ip]: the local tunnel port to each remote host. */
    var tunOfports: map<TunnelType, map<string, int>>
    var updatedPorts: set<PortId>
    /** The tunnel ports the agent has asked the bridge to delete (int_br.delete_port). */
    var deletedPorts: set<string>

    /** There is a registry for every tunnel type. */
    ghost predicate RegistriesPresent()
      reads this
    {
      Gre in tunOfports && Vxlan in tunOfports
    }

    /** The bridge's table is well formed, every tag is in the pool or held by exactly one network, and the registries exist. */
    ghost predicate Valid()
      reads this, intBr
    {
      && intBr.Valid()
      && TagsConserved(availableLocalVlans, localVlanMap)
      && RegistriesPresent()
      && enableTunneling == (|tunnelTypes| > 0)
    }

    /** The agent at start-up: the whole tag range in the pool, no network, empty registries, the default pipeline. */
    constructor(localIp: string, tunnelTypes: seq<TunnelType>, l2Pop: bool, intOfports: map<string, int>)
      ensures Valid() && fresh(intBr)
      ensures this.localIp == localIp && this.tunnelTypes == tunnelTypes && this.l2Pop == l2Pop
      ensures this.intOfports == intOfports
      ensures enableTunneling == (|tunnelTypes| > 0)
      ensures intBr.flows == DefaultTable()
      ensures IsRange(availableLocalVlans, MIN_VLAN_TAG, MAX_VLAN_TAG) && localVlanMap == map[]
      ensures tunOfports == map[Gre := map[], Vxlan := map[]]
      ensures updatedPorts == {} && deletedPorts == {}
    {
      var pool := TagPool();
      var br := new IntegrationBridge.WithDefaults();
      this.localIp := localIp;
      this.tunnelTypes := tunnelTypes;
      this.l2Pop := l2Pop;
      this.intOfports := intOfports;
      enableTunneling := |tunnelTypes| > 0;
      intBr := br;
      availableLocalVlans := pool;
      localVlanMap := map[];
      tunOfports := map[Gre := map[], Vxlan := map[]];
      updatedPorts := {};
      deletedPorts := {};
    }

    // ---------------------------------------------- local tags

    /**
     * provision_local_vlan: takes a tag from the pool for a new network and
     * installs the network's ingress flows; with the pool empty nothing
     * happens.
     */
    method ProvisionLocalVlan(netUuid: NetId, networkType: NetworkType, physicalNetwork: Option<string>,
                              segmentationId: nat) returns (lvid: Option<int>)
      requires Valid() && netUuid !in localVlanMap
      modifies this, intBr
      ensures Valid()
      ensures lvid.None? <==> old(availableLocalVlans) == {}
      ensures lvid.None? ==>
        localVlanMap == old(localVlanMap) && availableLocalVlans == old(availableLocalVlans) && intBr.flows == old(intBr.flows)
      ensures lvid.Some? ==>
        && lvid.value in old(availableLocalVlans)
        && availableLocalVlans == old(availableLocalVlans) - {lvid.value}
        && localVlanMap == old(localVlanMap)[netUuid := NewLocalVlanMapping(lvid.value, networkType, physicalNetwork, segmentationId)]
        && intBr.flows == ApplyAll(old(intBr.flows), ProvisionCalls(networkType, lvid.value, segmentationId,
                                                                    PhysPort(intOfports, physicalNetwork), enableTunneling))
      ensures tunOfports == old(tunOfports) && updatedPorts == old(updatedPorts) && deletedPorts == old(deletedPorts)
    {
      if availableLocalVlans == {} {
        return None;
      }
      var tag := Choose(availableLocalVlans);
      var lvm := NewLocalVlanMapping(tag, networkType, physicalNetwork, segmentationId);
      ProvisionConserves(availableLocalVlans, localVlanMap, netUuid, lvm);
      availableLocalVlans := availableLocalVlans - {tag};
      localVlanMap := localVlanMap[netUuid := lvm];
      ghost var calls := ProvisionCalls(networkType, tag, segmentationId, PhysPort(intOfports, physicalNetwork), enableTunneling);
      if networkType.TunnelNet? {
        if enableTunneling {
          ApplyAllOne(intBr.flows, calls[0]);
          intBr.ProvisionTenantTunnel(networkType.kind, tag, segmentationId);
        }
      } else if networkType == VlanNet || networkType == FlatNet {
        if physicalNetwork.Some? && physicalNetwork.value in intOfports {
          ApplyAllOne(intBr.flows, calls[0]);
          intBr.ProvisionTenantPhysnet(networkType, tag, segmentationId, intOfports[physicalNetwork.value]);
        }
      }
      lvid := Some(tag);
    }

    /**
     * reclaim_local_vlan (corrected): forgets the network, removes its
     * ingress flows, with l2 population cleans up the tunnel ports of its
     * flood set, and gives its tag back to the pool; an unknown network is
     * left alone.
     */
    method ReclaimLocalVlan(netUuid: NetId)
      requires Valid()
      modifies this, intBr
      ensures Valid()
      ensures netUuid !in old(localVlanMap) ==>
        && localVlanMap == old(localVlanMap) && availableLocalVlans == old(availableLocalVlans)
        && intBr.flows == old(intBr.flows) && tunOfports == old(tunOfports) && deletedPorts == old(deletedPorts)
      ensures netUuid in old(localVlanMap) ==>
        var lvm := old(localVlanMap)[netUuid];
        var released := ReleasedPorts(old(localVlanMap) - {netUuid}, lvm.networkType, lvm.tunOfports, enableTunneling && l2Pop);
        && localVlanMap == old(localVlanMap) - {netUuid}
        && availableLocalVlans == old(availableLocalVlans) + {lvm.vlan}
        && intBr.flows == ApplyAll(old(intBr.flows), ReclaimCalls(lvm.networkType, lvm.vlan, lvm.segmentationId,
                                                                  PhysPort(intOfports, lvm.physicalNetwork), enableTunneling))
        && tunOfports == RegistriesAfterReclaim(old(tunOfports), lvm.networkType, released)
        && deletedPorts == old(deletedPorts) + NamesAfterReclaim(old(tunOfports), lvm.networkType, released)
      ensures updatedPorts == old(updatedPorts)
    {
      if netUuid !in localVlanMap {
        return;
      }
      var lvm := localVlanMap[netUuid];
      ReclaimConserves(availableLocalVlans, localVlanMap, netUuid);
      localVlanMap := localVlanMap - {netUuid};
      ghost var calls := ReclaimCalls(lvm.networkType, lvm.vlan, lvm.segmentationId,
                                      PhysPort(intOfports, lvm.physicalNetwork), enableTunneling);
      if !(enableTunneling && l2Pop && lvm.networkType.TunnelNet?) {
        ReleaseNothing(tunOfports, lvm.networkType);
      }
      if lvm.networkType.TunnelNet? {
        if enableTunneling {
          ApplyAllOne(intBr.flows, calls[0]);
          intBr.ReclaimTenantTunnel(lvm.networkType.kind, lvm.vlan, lvm.segmentationId);
          if l2Pop {
            ReleaseTunnelPorts(lvm.networkType.kind, lvm.tunOfports);
          }
        }
      } else if lvm.networkType == VlanNet || lvm.networkType == FlatNet {
        if lvm.physicalNetwork.Some? && lvm.physicalNetwork.value in intOfports {
          ApplyAllOne(intBr.flows, calls[0]);
          intBr.ReclaimTenantPhysnet(lvm.networkType, lvm.vlan, lvm.segmentationId, intOfports[lvm.physicalNetwork.value]);
        }
      }
      availableLocalVlans := availableLocalVlans + {lvm.vlan};
    }

    // ---------------------------------------------- tunnel ports

    /**
     * The l2 population part of reclaim_local_vlan: cleans up each tunnel
     * port of a reclaimed network's flood set, which deletes those that no
     * remaining network floods to.
     */
    method ReleaseTunnelPorts(kind: TunnelType, flood: set<int>)
      requires RegistriesPresent()
      modifies this
      ensures RegistriesPresent()
      ensures var released := ReleasedPorts(localVlanMap, TunnelNet(kind), flood, true);
        && tunOfports == RegistriesAfterReclaim(old(tunOfports), TunnelNet(kind), released)
        && deletedPorts == old(deletedPorts) + NamesAfterReclaim(old(tunOfports), TunnelNet(kind), released)
      ensures localVlanMap == old(localVlanMap) && availableLocalVlans == old(availableLocalVlans)
      ensures updatedPorts == old(updatedPorts)
    {
      assert kind in tunOfports;
      var registry, names := ReleaseFromRegistry(localVlanMap, tunOfports[kind], flood, kind);
      tunOfports := tunOfports[kind := registry];
      deletedPorts := deletedPorts + names;
    }

    /**
     * setup_tunnel_port: records the port the switch created for the remote
     * host (addedOfport is the switch's answer, None when it is not an
     * integer) and tags its incoming traffic as tunnel traffic; a missing
     * or negative port records nothing and yields 0.
     */
    method SetupTunnelPort(remoteIp: string, kind: TunnelType, addedOfport: Option<int>) returns (ofport: int)
      requires Valid()
      modifies this, intBr
      ensures Valid()
      ensures addedOfport.None? || addedOfport.value < 0 ==>
        ofport == 0 && tunOfports == old(tunOfports) && intBr.flows == old(intBr.flows)
      ensures addedOfport.Some? && addedOfport.value >= 0 ==>
        && ofport == addedOfport.value
        && tunOfports == old(tunOfports)[kind := old(tunOfports)[kind][remoteIp := ofport]]
        && intBr.flows == Apply(old(intBr.flows), CheckInPortAddTunnelPort(kind, ofport))
      ensures localVlanMap == old(localVlanMap) && availableLocalVlans == old(availableLocalVlans)
      ensures updatedPorts == old(updatedPorts) && deletedPorts == old(deletedPorts)
    {
      ofport := if addedOfport.Some? then addedOfport.value else -1;
      if ofport < 0 {
        return 0;
      }
      tunOfports := tunOfports[kind := tunOfports[kind][remoteIp := ofport]];
      intBr.CheckInPortAddTunnelPort(kind, ofport);
    }

    /**
     * cleanup_tunnel_port: when no network floods to the tunnel port any
     * more, deletes it from the bridge under each name it was created with
     * and drops every registry entry that points to it; otherwise nothing
     * changes.
     */
    method CleanupTunnelPort(tunOfport: int, kind: TunnelType)
      requires RegistriesPresent()
      modifies this
      ensures RegistriesPresent()
      ensures Unreferenced(localVlanMap, tunOfport) ==>
        && tunOfports == old(tunOfports)[kind := RegistryWithout(old(tunOfports)[kind], {tunOfport})]
        && deletedPorts == old(deletedPorts) + DeletedNames(kind, old(tunOfports)[kind], {tunOfport})
      ensures !Unreferenced(localVlanMap, tunOfport) ==>
        tunOfports == old(tunOfports) && deletedPorts == old(deletedPorts)
      ensures RegistriesShrink(old(tunOfports), tunOfports, localVlanMap)
      ensures localVlanMap == old(localVlanMap) && availableLocalVlans == old(availableLocalVlans)
      ensures updatedPorts == old(updatedPorts)
    {
      var used := TunnelPortInUse(localVlanMap, tunOfport);
      if !used {
        CleanupShrinks(tunOfports, kind, tunOfport, localVlanMap);
        var pending, matched := ScanRegistry(tunOfports[kind], tunOfport);
        tunOfports := tunOfports[kind := pending];
        deletedPorts := deletedPorts + PortNames(kind, matched);
      } else {
        NoChange(localVlanMap, tunOfports, localIp);
      }
    }

    // ---------------------------------------------- RPC handlers

    /** get_net_uuid: a network the VIF is bound in, or None when it is bound in none. */
    method GetNetUuid(vifId: PortId) returns (r: Option<NetId>)
      ensures r.Some? ==> r.value in localVlanMap && vifId in localVlanMap[r.value].vifPorts
      ensures r.None? <==> forall n :: n in localVlanMap ==> vifId !in localVlanMap[n].vifPorts
    {
      var nets := localVlanMap.Keys;
      while nets != {}
        invariant nets <= localVlanMap.Keys
        invariant forall n :: n in localVlanMap && n !in nets ==> vifId !in localVlanMap[n].vifPorts
        decreases |nets|
      {
        var n := ChooseId(nets);
        if vifId in localVlanMap[n].vifPorts {
          return Some(n);
        }
        nets := nets - {n};
      }
      return None;
    }

    /** network_delete: reclaims the network when the agent has it. */
    method NetworkDelete(networkId: NetId)
      requires Valid()
      modifies this, intBr
      ensures Valid()
      ensures localVlanMap == old(localVlanMap) - {networkId}
      ensures networkId in old(localVlanMap) ==>
        var lvm := old(localVlanMap)[networkId];
        var released := ReleasedPorts(old(localVlanMap) - {networkId}, lvm.networkType, lvm.tunOfports, enableTunneling && l2Pop);
        && availableLocalVlans == old(availableLocalVlans) + {lvm.vlan}
        && intBr.flows == ApplyAll(old(intBr.flows), ReclaimCalls(lvm.networkType, lvm.vlan, lvm.segmentationId,
                                                                  PhysPort(intOfports, lvm.physicalNetwork), enableTunneling))
        && tunOfports == RegistriesAfterReclaim(old(tunOfports), lvm.networkType, released)
        && deletedPorts == old(deletedPorts) + NamesAfterReclaim(old(tunOfports), lvm.networkType, released)
      ensures networkId !in old(localVlanMap) ==>
        && availableLocalVlans == old(availableLocalVlans) && intBr.flows == old(intBr.flows)
        && tunOfports == old(tunOfports) && deletedPorts == old(deletedPorts)
      ensures updatedPorts == old(updatedPorts)
    {
      if networkId in localVlanMap {
        ReclaimLocalVlan(networkId);
      } else {
        assert localVlanMap - {networkId} == localVlanMap;
      }
    }

    /** port_update: the port is remembered for rewiring in the next polling iteration. */
    method PortUpdate(portId: PortId)
      modifies this
      ensures updatedPorts == old(updatedPorts) + {portId}
      ensures localVlanMap == old(localVlanMap) && availableLocalVlans == old(availableLocalVlans)
      ensures tunOfports == old(tunOfports) && deletedPorts == old(deletedPorts)
    {
      updatedPorts := updatedPorts + {portId};
    }

    /**
     * tunnel_update: without l2 population, sets up a tunnel port to the
     * announced host when tunnelling is on, the type is one the agent runs,
     * the host is not this one and its address is valid; otherwise nothing
     * changes.
     */
    method TunnelUpdate(tunnelIp: string, tunnelType: string, addedOfport: Option<int>)
      requires Valid()
      modifies this, intBr
      ensures Valid()
      ensures var kind := ParseTunnelType(tunnelType);
        var sets := enableTunneling && kind.Some? && kind.value in tunnelTypes && tunnelIp != localIp
                    && TunnelPortName(kind.value, tunnelIp).Some? && !l2Pop && addedOfport.Some? && addedOfport.value >= 0;
        && (sets ==> tunOfports == old(tunOfports)[kind.value := old(tunOfports)[kind.value][tunnelIp := addedOfport.value]]
                     && intBr.flows == Apply(old(intBr.flows), CheckInPortAddTunnelPort(kind.value, addedOfport.value)))
        && (!sets ==> tunOfports == old(tunOfports) && intBr.flows == old(intBr.flows))
      ensures localVlanMap == old(localVlanMap) && availableLocalVlans == old(availableLocalVlans)
      ensures updatedPorts == old(updatedPorts) && deletedPorts == old(deletedPorts)
    {
      if !enableTunneling {
        return;
      }
      var kind := ParseTunnelType(tunnelType);
      if kind.None? || kind.value !in tunnelTypes {
        return;
      }
      if tunnelIp == localIp {
        return;
      }
      var tunName := TunnelPortName(kind.value, tunnelIp);
      if tunName.None? {
        return;
      }
      if !l2Pop {
        var _ := SetupTunnelPort(tunnelIp, kind.value, addedOfport);
      }
    }

    // ---------------------------------------------- binding VIF ports

    /**
     * The part of port_bound after the network has its tag: the port joins
     * the network's VIF ports, its traffic is tagged, the network floods to
     * all its ports, and its MAC, when known, is delivered to it.
     */
    method BindPort(port: VifPort, netUuid: NetId) returns (floodPorts: seq<int>)
      requires Valid() && netUuid in localVlanMap
      modifies this, intBr
      ensures Valid()
      ensures var lvm := old(localVlanMap)[netUuid];
        var vifPorts := lvm.vifPorts[port.vifId := port];
        && localVlanMap == old(localVlanMap)[netUuid := lvm.(vifPorts := vifPorts)]
        && Elements(floodPorts) == OfportSet(vifPorts) && |floodPorts| == |vifPorts|
        && intBr.flows == ApplyAll(old(intBr.flows), BindCalls(lvm.vlan, port, vifPorts, floodPorts))
      ensures availableLocalVlans == old(availableLocalVlans) && tunOfports == old(tunOfports)
      ensures updatedPorts == old(updatedPorts) && deletedPorts == old(deletedPorts)
    {
      ghost var t := intBr.flows;
      var lvm := localVlanMap[netUuid];
      var vifPorts := lvm.vifPorts[port.vifId := port];
      UpdateConserves(availableLocalVlans, localVlanMap, netUuid, lvm.(vifPorts := vifPorts));
      localVlanMap := localVlanMap[netUuid := lvm.(vifPorts := vifPorts)];
      intBr.CheckInPortAddLocalPort(lvm.vlan, port.ofport);
      floodPorts := VifOfports(vifPorts);
      intBr.LocalFloodUpdate(lvm.vlan, floodPorts, FloodUnicast(vifPorts));
      if port.vifMac.Some? {
        intBr.LocalOutAddPort(lvm.vlan, port.ofport, port.vifMac.value);
      }
      BindUnfold(t, lvm.vlan, port, vifPorts, floodPorts);
    }

    /**
     * port_bound (corrected) for a network the agent has no record of: a
     * local VLAN is taken from the pool and the network provisioned, then
     * the port bound in it; with the pool empty nothing changes.
     */
    method ProvisionAndBind(port: VifPort, netUuid: NetId, networkType: NetworkType, physicalNetwork: Option<string>,
                            segmentationId: nat) returns (bound: bool, floodPorts: seq<int>)
      requires Valid() && netUuid !in localVlanMap
      modifies this, intBr
      ensures Valid()
      ensures bound <==> old(availableLocalVlans) != {}
      ensures !bound ==>
        localVlanMap == old(localVlanMap) && availableLocalVlans == old(availableLocalVlans) && intBr.flows == old(intBr.flows)
      ensures bound ==>
        netUuid in localVlanMap &&
        var tag := localVlanMap[netUuid].vlan;
        && tag in old(availableLocalVlans)
        && availableLocalVlans == old(availableLocalVlans) - {tag}
        && localVlanMap == old(localVlanMap)[netUuid := NewLocalVlanMapping(tag, networkType, physicalNetwork, segmentationId)
                                                          .(vifPorts := map[port.vifId := port])]
        && Elements(floodPorts) == {port.ofport} && |floodPorts| == 1
        && intBr.flows == ApplyAll(ApplyAll(old(intBr.flows), ProvisionCalls(networkType, tag, segmentationId,
                                                                             PhysPort(intOfports, physicalNetwork), enableTunneling)),
                                   BindCalls(tag, port, map[port.vifId := port], floodPorts))
      ensures tunOfports == old(tunOfports) && updatedPorts == old(updatedPorts) && deletedPorts == old(deletedPorts)
    {
      ghost var m0 := localVlanMap;
      var lvid := ProvisionLocalVlan(netUuid, networkType, physicalNetwork, segmentationId);
      if lvid.None? {
        return false, [];
      }
      FirstBinding(m0, netUuid, NewLocalVlanMapping(lvid.value, networkType, physicalNetwork, segmentationId), port);
      floodPorts := BindPort(port, netUuid);
      bound := true;
    }

    /**
     * port_bound (corrected): provisions the network if it is new, then
     * binds the port in it. With the pool empty and the network new nothing
     * changes (bound is false).
     */
    method PortBound(port: VifPort, netUuid: NetId, networkType: NetworkType, physicalNetwork: Option<string>,
                     segmentationId: nat) returns (bound: bool, floodPorts: seq<int>)
      requires Valid()
      modifies this, intBr
      ensures Valid()
      ensures bound <==> netUuid in old(localVlanMap) || old(availableLocalVlans) != {}
      ensures !bound ==>
        localVlanMap == old(localVlanMap) && availableLocalVlans == old(availableLocalVlans) && intBr.flows == old(intBr.flows)
      ensures bound && netUuid in old(localVlanMap) ==>
        var lvm := old(localVlanMap)[netUuid];
        var vifPorts := lvm.vifPorts[port.vifId := port];
        && localVlanMap == old(localVlanMap)[netUuid := lvm.(vifPorts := vifPorts)]
        && availableLocalVlans == old(availableLocalVlans)
        && Elements(floodPorts) == OfportSet(vifPorts) && |floodPorts| == |vifPorts|
        && intBr.flows == ApplyAll(old(intBr.flows), BindCalls(lvm.vlan, port, vifPorts, floodPorts))
      ensures bound && netUuid !in old(localVlanMap) ==>
        netUuid in localVlanMap &&
        var tag := localVlanMap[netUuid].vlan;
        && tag in old(availableLocalVlans)
        && availableLocalVlans == old(availableLocalVlans) - {tag}
        && localVlanMap == old(localVlanMap)[netUuid := NewLocalVlanMapping(tag, networkType, physicalNetwork, segmentationId)
                                                          .(vifPorts := map[port.vifId := port])]
        && Elements(floodPorts) == {port.ofport} && |floodPorts| == 1
        && intBr.flows == ApplyAll(ApplyAll(old(intBr.flows), ProvisionCalls(networkType, tag, segmentationId,
                                                                             PhysPort(intOfports, physicalNetwork), enableTunneling)),
                                   BindCalls(tag, port, map[port.vifId := port], floodPorts))
      ensures tunOfports == old(tunOfports) && updatedPorts == old(updatedPorts) && deletedPorts == old(deletedPorts)
    {
      if netUuid in localVlanMap {
        floodPorts := BindPort(port, netUuid);
        bound := true;
      } else {
        bound, floodPorts := ProvisionAndBind(port, netUuid, networkType, physicalNetwork, segmentationId);
      }
    }

    /**
     * Unbinding a VIF that is not its network's last: the port leaves the
     * network's VIF ports and loses its flows, and the network's LOCAL_FLOOD
     * entry is rewritten for the remaining ports.
     */
    method UnbindPortOfShared(vifId: PortId, net: NetId) returns (floodPorts: seq<int>)
      requires Valid() && net in localVlanMap && vifId in localVlanMap[net].vifPorts
      requires |localVlanMap[net].vifPorts - {vifId}| > 0
      modifies this, intBr
      ensures Valid()
      ensures var lvm := old(localVlanMap)[net];
        var remaining := lvm.vifPorts - {vifId};
        && localVlanMap == old(localVlanMap)[net := lvm.(vifPorts := remaining)]
        && Elements(floodPorts) == OfportSet(remaining) && |floodPorts| == |remaining|
        && intBr.flows == AfterUnbind(old(intBr.flows), lvm.vlan, lvm.networkType, lvm.segmentationId, lvm.vifPorts[vifId],
                                      remaining, floodPorts, PhysPort(intOfports, lvm.physicalNetwork), enableTunneling)
      ensures availableLocalVlans == old(availableLocalVlans) && tunOfports == old(tunOfports)
      ensures updatedPorts == old(updatedPorts) && deletedPorts == old(deletedPorts)
    {
      var lvm := localVlanMap[net];
      var port := lvm.vifPorts[vifId];
      var remaining := lvm.vifPorts - {vifId};
      UpdateConserves(availableLocalVlans, localVlanMap, net, lvm.(vifPorts := remaining));
      localVlanMap := localVlanMap[net := lvm.(vifPorts := remaining)];
      ghost var t := intBr.flows;
      intBr.CheckInPortDeletePort(port.ofport);
      floodPorts := VifOfports(remaining);
      intBr.LocalFloodUpdate(lvm.vlan, floodPorts, FloodUnicast(remaining));
      if port.vifMac.Some? {
        intBr.LocalOutDeletePort(lvm.vlan, port.vifMac.value);
      }
      UnbindSequence(t, lvm.vlan, lvm.networkType, lvm.segmentationId, port, remaining, floodPorts,
                     PhysPort(intOfports, lvm.physicalNetwork), enableTunneling);
    }

    /**
     * Unbinding a network's last VIF: the port loses its flows, the
     * network's LOCAL_FLOOD entry goes and the network is reclaimed. (The
     * code as written keeps the LOCAL_FLOOD entry; see
     * Findings.UnbindLastAsWrittenKeepsFlood.)
     */
    method UnbindLastPort(vifId: PortId, net: NetId)
      requires Valid() && net in localVlanMap && vifId in localVlanMap[net].vifPorts
      requires |localVlanMap[net].vifPorts - {vifId}| == 0
      modifies this, intBr
      ensures Valid()
      ensures localVlanMap == old(localVlanMap) - {net}
      ensures availableLocalVlans == old(availableLocalVlans) + {old(localVlanMap)[net].vlan}
      ensures var lvm := old(localVlanMap)[net];
        tunOfports == RegistriesAfterReclaim(old(tunOfports), lvm.networkType, ReleasedPorts(old(localVlanMap) - {net}, lvm.networkType, lvm.tunOfports, enableTunneling && l2Pop))
      ensures var lvm := old(localVlanMap)[net];
        deletedPorts == old(deletedPorts) + NamesAfterReclaim(old(tunOfports), lvm.networkType, ReleasedPorts(old(localVlanMap) - {net}, lvm.networkType, lvm.tunOfports, enableTunneling && l2Pop))
      ensures var lvm := old(localVlanMap)[net];
        intBr.flows == AfterUnbind(old(intBr.flows), lvm.vlan, lvm.networkType, lvm.segmentationId, lvm.vifPorts[vifId],
                                   map[], [], PhysPort(intOfports, lvm.physicalNetwork), enableTunneling)
      ensures updatedPorts == old(updatedPorts)
    {
      var lvm := localVlanMap[net];
      var port := lvm.vifPorts[vifId];
      var remaining := lvm.vifPorts - {vifId};
      assert remaining == map[];
      UpdateConserves(availableLocalVlans, localVlanMap, net, lvm.(vifPorts := remaining));
      localVlanMap := localVlanMap[net := lvm.(vifPorts := remaining)];
      ghost var t := intBr.flows;
      intBr.CheckInPortDeletePort(port.ofport);
      intBr.LocalFloodDelete(lvm.vlan);
      UpdateThenRemove(old(localVlanMap), net, lvm.(vifPorts := remaining));
      ghost var released := ReleasedPorts(old(localVlanMap) - {net}, lvm.networkType, lvm.tunOfports, enableTunneling && l2Pop);
      assert released == ReleasedPorts(localVlanMap - {net}, localVlanMap[net].networkType, localVlanMap[net].tunOfports,
                                       enableTunneling && l2Pop);
      ReclaimLocalVlan(net);
      assert tunOfports == RegistriesAfterReclaim(old(tunOfports), lvm.networkType, released);
      assert deletedPorts == old(deletedPorts) + NamesAfterReclaim(old(tunOfports), lvm.networkType, released);
      if port.vifMac.Some? {
        intBr.LocalOutDeletePort(lvm.vlan, port.vifMac.value);
      }
      UnbindSequence(t, lvm.vlan, lvm.networkType, lvm.segmentationId, port, remaining, [],
                     PhysPort(intOfports, lvm.physicalNetwork), enableTunneling);
    }

    /**
     * The part of port_unbound after the VIF's network is known: the port
     * leaves the network's VIF ports and loses its flows; the network's
     * LOCAL_FLOOD entry is rewritten for the remaining ports, or, when none
     * remain, removed and the network reclaimed.
     */
    method UnbindPort(vifId: PortId, net: NetId) returns (floodPorts: seq<int>)
      requires Valid() && net in localVlanMap && vifId in localVlanMap[net].vifPorts
      modifies this, intBr
      ensures Valid()
      ensures var lvm := old(localVlanMap)[net];
        var remaining := lvm.vifPorts - {vifId};
        && (|remaining| > 0 ==>
             && localVlanMap == old(localVlanMap)[net := lvm.(vifPorts := remaining)]
             && availableLocalVlans == old(availableLocalVlans)
             && tunOfports == old(tunOfports) && deletedPorts == old(deletedPorts)
             && Elements(floodPorts) == OfportSet(remaining) && |floodPorts| == |remaining|)
        && (|remaining| == 0 ==>
             var released := ReleasedPorts(old(localVlanMap) - {net}, lvm.networkType, lvm.tunOfports, enableTunneling && l2Pop);
             && localVlanMap == old(localVlanMap) - {net}
             && availableLocalVlans == old(availableLocalVlans) + {lvm.vlan}
             && tunOfports == RegistriesAfterReclaim(old(tunOfports), lvm.networkType, released)
             && deletedPorts == old(deletedPorts) + NamesAfterReclaim(old(tunOfports), lvm.networkType, released))
        && intBr.flows == AfterUnbind(old(intBr.flows), lvm.vlan, lvm.networkType, lvm.segmentationId, lvm.vifPorts[vifId],
                                      remaining, floodPorts, PhysPort(intOfports, lvm.physicalNetwork), enableTunneling)
      ensures updatedPorts == old(updatedPorts)
    {
      if |localVlanMap[net].vifPorts - {vifId}| > 0 {
        floodPorts := UnbindPortOfShared(vifId, net);
      } else {
        assert localVlanMap[net].vifPorts - {vifId} == map[];
        UnbindLastPort(vifId, net);
        floodPorts := [];
      }
    }

    /**
     * port_unbound (corrected): resolves the VIF's network when none is
     * given and unbinds the VIF there when it is bound there; otherwise
     * nothing changes.
     */
    method PortUnbound(vifId: PortId, netUuid: Option<NetId>) returns (unbound: bool, net: NetId, floodPorts: seq<int>)
      requires Valid()
      modifies this, intBr
      ensures Valid()
      ensures netUuid.Some? ==>
        (unbound <==> netUuid.value in old(localVlanMap) && vifId in old(localVlanMap)[netUuid.value].vifPorts)
      ensures netUuid.Some? && unbound ==> net == netUuid.value
      ensures netUuid.None? ==> (unbound <==> !BoundNowhere(old(localVlanMap), vifId))
      ensures unbound ==> UnboundFrom(old(localVlanMap), localVlanMap, net, vifId)
      ensures !unbound ==>
        && localVlanMap == old(localVlanMap) && availableLocalVlans == old(availableLocalVlans)
        && intBr.flows == old(intBr.flows) && tunOfports == old(tunOfports) && deletedPorts == old(deletedPorts)
      ensures updatedPorts == old(updatedPorts)
    {
      var resolved := netUuid;
      if resolved.None? {
        resolved := GetNetUuid(vifId);
        if resolved.None? {
          assert BoundNowhere(localVlanMap, vifId) by {
            forall n ensures !IsBound(localVlanMap, n, vifId) {
            }
          }
        } else {
          assert IsBound(localVlanMap, resolved.value, vifId);
        }
      }
      if resolved.None? || resolved.value !in localVlanMap || vifId !in localVlanMap[resolved.value].vifPorts {
        return false, "", [];
      }
      net := resolved.value;
      floodPorts := UnbindPort(vifId, net);
      unbound := true;
    }

    // ---------------------------------------------- forwarding-database updates (l2 population)

    /**
     * _add_fdb_flow: the flooding entry adds the tunnel port to the
     * network's flood set and rewrites its TUNNEL_FLOOD entry for the whole
     * set (floodPorts, in iteration order); a MAC gets a TUNNEL_OUT entry
     * to the port.
     */
    method AddFdbFlow(entry: FdbEntry, net: NetId, ofport: int) returns (floodPorts: seq<int>)
      requires Valid() && net in localVlanMap && localVlanMap[net].networkType.TunnelNet?
      modifies this, intBr
      ensures Valid()
      ensures var lvm := old(localVlanMap)[net];
        && (entry == FLOODING_ENTRY ==>
             && localVlanMap == WithFlood(old(localVlanMap), net, lvm.tunOfports + {ofport})
             && Elements(floodPorts) == lvm.tunOfports + {ofport} && |floodPorts| == |lvm.tunOfports + {ofport}|)
        && (entry != FLOODING_ENTRY ==> localVlanMap == old(localVlanMap) && floodPorts == [])
        && intBr.flows == Install(old(intBr.flows), AddFdbEntry(lvm.networkType.kind, lvm.vlan, lvm.segmentationId, entry, ofport, floodPorts))
      ensures availableLocalVlans == old(availableLocalVlans) && tunOfports == old(tunOfports)
      ensures updatedPorts == old(updatedPorts) && deletedPorts == old(deletedPorts)
    {
      var lvm := localVlanMap[net];
      var flood := lvm.tunOfports;
      if entry == FLOODING_ENTRY {
        flood := flood + {ofport};
        UpdateConserves(availableLocalVlans, localVlanMap, net, lvm.(tunOfports := flood));
        localVlanMap := WithFlood(localVlanMap, net, flood);
      }
      floodPorts := InstallFdbFlow(intBr, lvm.networkType.kind, lvm.vlan, lvm.segmentationId, entry, ofport, flood);
    }

    /**
     * _del_fdb_flow (corrected table): the flooding entry takes the tunnel
     * port out of the network's flood set, rewrites the TUNNEL_FLOOD entry
     * for the rest or deletes it when none is left, and cleans the port up;
     * a MAC loses its TUNNEL_OUT entry. A flooding entry whose port is not
     * in the flood set fails (KeyError, ok false) and changes nothing.
     */
    method DelFdbFlow(entry: FdbEntry, net: NetId, ofport: int) returns (ok: bool, floodPorts: seq<int>)
      requires Valid() && net in localVlanMap && localVlanMap[net].networkType.TunnelNet?
      modifies this, intBr
      ensures Valid()
      ensures ok <==> entry != FLOODING_ENTRY || ofport in old(localVlanMap)[net].tunOfports
      ensures !ok ==>
        && localVlanMap == old(localVlanMap) && intBr.flows == old(intBr.flows)
        && tunOfports == old(tunOfports) && deletedPorts == old(deletedPorts)
      ensures var lvm := old(localVlanMap)[net];
        var kind := lvm.networkType.kind;
        ok && entry == FLOODING_ENTRY ==>
          && localVlanMap == WithFlood(old(localVlanMap), net, lvm.tunOfports - {ofport})
          && Elements(floodPorts) == lvm.tunOfports - {ofport} && |floodPorts| == |lvm.tunOfports - {ofport}|
          && intBr.flows == Apply(old(intBr.flows), DelFdbCall(kind, lvm.vlan, entry, lvm.segmentationId, floodPorts))
          && (Unreferenced(localVlanMap, ofport) ==>
                && tunOfports == old(tunOfports)[kind := RegistryWithout(old(tunOfports)[kind], {ofport})]
                && deletedPorts == old(deletedPorts) + DeletedNames(kind, old(tunOfports)[kind], {ofport}))
          && (!Unreferenced(localVlanMap, ofport) ==> tunOfports == old(tunOfports) && deletedPorts == old(deletedPorts))
      ensures var lvm := old(localVlanMap)[net];
        entry != FLOODING_ENTRY ==>
          && localVlanMap == old(localVlanMap) && floodPorts == []
          && intBr.flows == Apply(old(intBr.flows), DelFdbCall(lvm.networkType.kind, lvm.vlan, entry, lvm.segmentationId, []))
          && tunOfports == old(tunOfports) && deletedPorts == old(deletedPorts)
      ensures RegistriesShrink(old(tunOfports), tunOfports, localVlanMap)
      ensures availableLocalVlans == old(availableLocalVlans) && updatedPorts == old(updatedPorts)
    {
      var lvm := localVlanMap[net];
      if entry != FLOODING_ENTRY {
        intBr.DeleteTunnelOutput(TUNNEL_OUT, lvm.vlan, map[EthDst := Mac(entry.mac)]);
        NoChange(localVlanMap, tunOfports, localIp);
        return true, [];
      }
      if ofport !in lvm.tunOfports {
        NoChange(localVlanMap, tunOfports, localIp);
        return false, [];
      }
      floodPorts := RemoveFloodPort(net, ofport);
      ok := true;
    }

    /** The flooding-entry half of _del_fdb_flow, for a port in the network's flood set. */
    method RemoveFloodPort(net: NetId, ofport: int) returns (floodPorts: seq<int>)
      requires Valid() && net in localVlanMap && localVlanMap[net].networkType.TunnelNet?
      requires ofport in localVlanMap[net].tunOfports
      modifies this, intBr
      ensures Valid()
      ensures var lvm := old(localVlanMap)[net];
        var kind := lvm.networkType.kind;
        && localVlanMap == WithFlood(old(localVlanMap), net, lvm.tunOfports - {ofport})
        && Elements(floodPorts) == lvm.tunOfports - {ofport} && |floodPorts| == |lvm.tunOfports - {ofport}|
        && intBr.flows == Apply(old(intBr.flows), DelFdbCall(kind, lvm.vlan, FLOODING_ENTRY, lvm.segmentationId, floodPorts))
        && (Unreferenced(localVlanMap, ofport) ==>
              && tunOfports == old(tunOfports)[kind := RegistryWithout(old(tunOfports)[kind], {ofport})]
              && deletedPorts == old(deletedPorts) + DeletedNames(kind, old(tunOfports)[kind], {ofport}))
        && (!Unreferenced(localVlanMap, ofport) ==> tunOfports == old(tunOfports) && deletedPorts == old(deletedPorts))
      ensures RegistriesShrink(old(tunOfports), tunOfports, localVlanMap)
      ensures availableLocalVlans == old(availableLocalVlans) && updatedPorts == old(updatedPorts)
    {
      var kind := localVlanMap[net].networkType.kind;
      floodPorts := DropFloodPort(net, ofport);
      CleanupTunnelPort(ofport, kind);
    }

    /** The flood-set and flow part of RemoveFloodPort: the port leaves the network's flood set and its TUNNEL_FLOOD entry. */
    method DropFloodPort(net: NetId, ofport: int) returns (floodPorts: seq<int>)
      requires Valid() && net in localVlanMap && localVlanMap[net].networkType.TunnelNet?
      modifies this, intBr
      ensures Valid()
      ensures var lvm := old(localVlanMap)[net];
        && localVlanMap == WithFlood(old(localVlanMap), net, lvm.tunOfports - {ofport})
        && Elements(floodPorts) == lvm.tunOfports - {ofport} && |floodPorts| == |lvm.tunOfports - {ofport}|
        && intBr.flows == Apply(old(intBr.flows), DelFdbCall(lvm.networkType.kind, lvm.vlan, FLOODING_ENTRY, lvm.segmentationId, floodPorts))
      ensures tunOfports == old(tunOfports) && deletedPorts == old(deletedPorts)
      ensures availableLocalVlans == old(availableLocalVlans) && updatedPorts == old(updatedPorts)
    {
      var lvm := localVlanMap[net];
      var flood := lvm.tunOfports - {ofport};
      UpdateConserves(availableLocalVlans, localVlanMap, net, lvm.(tunOfports := flood));
      localVlanMap := WithFlood(localVlanMap, net, flood);
      floodPorts := RewriteFloodEntry(intBr, lvm.networkType.kind, lvm.vlan, lvm.segmentationId, flood);
    }

    /**
     * The first half of fdb_add's loop body for one remote host: the
     * registered tunnel port to the host, or, when there is none (0 is
     * none) and the host's address is valid, a new one set up with the
     * switch's answer; 0 when the host has no port.
     */
    method ResolveTunnelPort(kind: TunnelType, remoteIp: string, answer: Option<int>) returns (ofport: int)
      requires Valid() && remoteIp != localIp
      modifies this, intBr
      ensures Valid()
      ensures var known := KnownPort(old(tunOfports)[kind], remoteIp);
        var setup := known == 0 && TunnelPortName(kind, remoteIp).Some?;
        && ofport == (if known != 0 then known else if setup then SetupResult(answer) else 0)
        && tunOfports == (if setup then RegistriesAfterSetup(old(tunOfports), kind, remoteIp, answer) else old(tunOfports))
        && intBr.flows == (if setup && answer.Some? && answer.value >= 0 then Apply(old(intBr.flows), CheckInPortAddTunnelPort(kind, answer.value))
                           else old(intBr.flows))
      ensures ofport != 0 ==> remoteIp in tunOfports[kind] && tunOfports[kind][remoteIp] == ofport
      ensures RegistriesGrow(old(tunOfports), tunOfports, localIp)
      ensures localVlanMap == old(localVlanMap) && availableLocalVlans == old(availableLocalVlans)
      ensures updatedPorts == old(updatedPorts) && deletedPorts == old(deletedPorts)
    {
      ofport := KnownPort(tunOfports[kind], remoteIp);
      if ofport == 0 {
        var portName := TunnelPortName(kind, remoteIp);
        if portName.None? {
          NoChange(localVlanMap, tunOfports, localIp);
          return;
        }
        ofport := SetupTunnelPort(remoteIp, kind, answer);
      } else {
        NoChange(localVlanMap, tunOfports, localIp);
      }
    }

    /**
     * The second half of fdb_add's loop body: each announced entry of the
     * host is added with its tunnel port, so that the network's
     * TUNNEL_FLOOD entry floods to the whole flood set and each MAC's
     * TUNNEL_OUT entry goes to the port.
     */
    method AddHostEntries(net: NetId, ofport: int, entries: seq<FdbEntry>)
      requires Valid() && net in localVlanMap && localVlanMap[net].networkType.TunnelNet?
      modifies this, intBr
      ensures Valid()
      ensures var lvm := old(localVlanMap)[net];
        && localVlanMap == WithFlood(old(localVlanMap), net, lvm.tunOfports + (if FLOODING_ENTRY in entries then {ofport} else {}))
        && FdbInstalled(intBr.flows, lvm.networkType.kind, lvm.vlan, entries, ofport, localVlanMap[net].tunOfports)
      ensures tunOfports == old(tunOfports) && availableLocalVlans == old(availableLocalVlans)
      ensures updatedPorts == old(updatedPorts) && deletedPorts == old(deletedPorts)
    {
      var lvm := localVlanMap[net];
      var flood := InstallHostEntries(intBr, lvm.networkType.kind, lvm.vlan, lvm.segmentationId, entries, ofport, lvm.tunOfports);
      UpdateConserves(availableLocalVlans, localVlanMap, net, lvm.(tunOfports := flood));
      localVlanMap := WithFlood(localVlanMap, net, flood);
    }

    /**
     * fdb_add's loop body for one remote host of a tunnel network: with a
     * tunnel port to the host (an existing one or a new one), its entries
     * are added; without one (address invalid, or setup failed) they are
     * skipped.
     */
    method FdbAddHost(net: NetId, kind: TunnelType, remoteIp: string, entries: seq<FdbEntry>, answer: Option<int>) returns (ofport: int)
      requires Valid() && net in localVlanMap && localVlanMap[net].networkType == TunnelNet(kind) && remoteIp != localIp
      modifies this, intBr
      ensures Valid()
      ensures var lvm := old(localVlanMap)[net];
        var known := KnownPort(old(tunOfports)[kind], remoteIp);
        var setup := known == 0 && TunnelPortName(kind, remoteIp).Some?;
        && ofport == (if known != 0 then known else if setup then SetupResult(answer) else 0)
        && tunOfports == (if setup then RegistriesAfterSetup(old(tunOfports), kind, remoteIp, answer) else old(tunOfports))
        && (ofport == 0 ==> localVlanMap == old(localVlanMap))
        && (ofport != 0 ==>
              && remoteIp in tunOfports[kind] && tunOfports[kind][remoteIp] == ofport
              && localVlanMap == WithFlood(old(localVlanMap), net, lvm.tunOfports + (if FLOODING_ENTRY in entries then {ofport} else {}))
              && FdbInstalled(intBr.flows, kind, lvm.vlan, entries, ofport, localVlanMap[net].tunOfports))
      ensures RegistriesGrow(old(tunOfports), tunOfports, localIp)
      ensures availableLocalVlans == old(availableLocalVlans)
      ensures updatedPorts == old(updatedPorts) && deletedPorts == old(deletedPorts)
    {
      ofport := ResolveTunnelPort(kind, remoteIp, answer);
      if ofport != 0 {
        AddHostEntries(net, ofport, entries);
      }
    }

    /**
     * One step of fdb_remove's inner loop: entry i of the host is removed
     * with _del_fdb_flow. It fails (the KeyError of removing a port that
     * is not in the flood set) only for the flooding entry, and then
     * changes nothing.
     */
    method RemoveHostEntry(net: NetId, kind: TunnelType, entries: seq<FdbEntry>, i: nat, ofport: int,
                           ghost m0: map<NetId, LocalVlanMapping>, ghost r0: map<TunnelType, map<string, int>>) returns (ok: bool)
      requires Valid() && net in m0 && m0[net].networkType == TunnelNet(kind) && i < |entries|
      requires RemovalFrom(m0, r0, net, kind, ofport, entries[..i], localVlanMap, tunOfports, intBr.flows)
      modifies this, intBr
      ensures Valid()
      ensures ok ==> RemovalFrom(m0, r0, net, kind, ofport, entries[..i + 1], localVlanMap, tunOfports, intBr.flows)
      ensures !ok ==> entries[i] == FLOODING_ENTRY && RemovalFrom(m0, r0, net, kind, ofport, entries[..i], localVlanMap, tunOfports, intBr.flows)
      ensures old(deletedPorts) <= deletedPorts
      ensures availableLocalVlans == old(availableLocalVlans) && updatedPorts == old(updatedPorts)
    {
      ghost var t := intBr.flows;
      ghost var m1 := localVlanMap;
      ghost var r1 := tunOfports;
      var floodPorts;
      ok, floodPorts := DelFdbFlow(entries[i], net, ofport);
      if ok {
        RemovalFromStep(m0, r0, net, kind, ofport, entries, i, m1, r1, t, floodPorts, localVlanMap, tunOfports, intBr.flows);
      }
    }

    /**
     * fdb_remove's loop body for one remote host of a tunnel network: with
     * no registered tunnel port to the host nothing happens; otherwise its
     * entries are removed one by one, stopping at the first that fails.
     */
    method FdbRemoveHost(net: NetId, kind: TunnelType, remoteIp: string, entries: seq<FdbEntry>) returns (ok: bool)
      requires Valid() && net in localVlanMap && localVlanMap[net].networkType == TunnelNet(kind)
      modifies this, intBr
      ensures Valid()
      ensures var lvm := old(localVlanMap)[net];
        var known := KnownPort(old(tunOfports)[kind], remoteIp);
        && (known == 0 ==> ok && localVlanMap == old(localVlanMap) && intBr.flows == old(intBr.flows) && tunOfports == old(tunOfports))
        && (ok && known != 0 ==>
              && localVlanMap == WithFlood(old(localVlanMap), net, lvm.tunOfports - (if FLOODING_ENTRY in entries then {known} else {}))
              && FdbRemoved(intBr.flows, kind, lvm.vlan, entries, localVlanMap[net].tunOfports))
        && (!ok ==> known != 0 && FLOODING_ENTRY in entries)
      ensures FloodSetsShrink(old(localVlanMap), localVlanMap)
      ensures net in localVlanMap && localVlanMap == WithFlood(old(localVlanMap), net, localVlanMap[net].tunOfports)
      ensures RegistriesShrink(old(tunOfports), tunOfports, localVlanMap)
      ensures old(deletedPorts) <= deletedPorts
      ensures availableLocalVlans == old(availableLocalVlans) && updatedPorts == old(updatedPorts)
    {
      var ofport := KnownPort(tunOfports[kind], remoteIp);
      NoChange(localVlanMap, tunOfports, localIp);
      if ofport == 0 {
        return true;
      }
      var removed;
      ok, removed := RemoveHostEntries(net, kind, entries, ofport);
      if ok {
        assert entries[..removed] == entries;
      }
    }

    /** fdb_remove's loop over one host's entries, in order, up to the first that fails (removed of them went). */
    method RemoveHostEntries(net: NetId, kind: TunnelType, entries: seq<FdbEntry>, ofport: int)
      returns (ok: bool, removed: nat)
      requires Valid() && net in localVlanMap && localVlanMap[net].networkType == TunnelNet(kind)
      modifies this, intBr
      ensures Valid()
      ensures removed <= |entries| && (ok ==> removed == |entries|) && (!ok ==> removed < |entries| && entries[removed] == FLOODING_ENTRY)
      ensures RemovalFrom(old(localVlanMap), old(tunOfports), net, kind, ofport, entries[..removed], localVlanMap, tunOfports, intBr.flows)
      ensures old(deletedPorts) <= deletedPorts
      ensures availableLocalVlans == old(availableLocalVlans) && updatedPorts == old(updatedPorts)
    {
      ghost var m0 := localVlanMap;
      ghost var r0 := tunOfports;
      NoChange(localVlanMap, tunOfports, localIp);
      assert m0[net].tunOfports - {} == m0[net].tunOfports;
      WithFloodSpec(m0, net, m0[net].tunOfports, m0[net].tunOfports);
      removed := 0;
      while removed < |entries|
        invariant Valid() && removed <= |entries|
        invariant RemovalFrom(m0, r0, net, kind, ofport, entries[..removed], localVlanMap, tunOfports, intBr.flows)
        invariant old(deletedPorts) <= deletedPorts
        invariant availableLocalVlans == old(availableLocalVlans) && updatedPorts == old(updatedPorts)
      {
        ok := RemoveHostEntry(net, kind, entries, removed, ofport, m0, r0);
        if !ok {
          return;
        }
        removed := removed + 1;
      }
      ok := true;
    }

    /** One step of FdbAddNetwork: the host h of the network is handled by FdbAddHost. */
    method AddNetworkHost(net: NetId, kind: TunnelType, hosts: map<string, seq<FdbEntry>>, h: string,
                          answers: map<string, Option<int>>, ghost done: set<string>,
                          ghost m0: map<NetId, LocalVlanMapping>, ghost r0: map<TunnelType, map<string, int>>)
      requires Valid() && net in m0 && m0[net].networkType == TunnelNet(kind)
      requires h in hosts && h !in done && h != localIp
      requires AddingFrom(m0, r0, net, kind, hosts, done, localIp, localVlanMap, tunOfports)
      modifies this, intBr
      ensures Valid()
      ensures AddingFrom(m0, r0, net, kind, hosts, done + {h}, localIp, localVlanMap, tunOfports)
      ensures availableLocalVlans == old(availableLocalVlans)
      ensures updatedPorts == old(updatedPorts) && deletedPorts == old(deletedPorts)
    {
      ghost var m1 := localVlanMap;
      ghost var r1 := tunOfports;
      var ofport := FdbAddHost(net, kind, h, hosts[h], Lookup(answers, h));
      AddingFromStep(m0, r0, net, kind, hosts, done, localIp, h, Lookup(answers, h), ofport, m1, r1, localVlanMap, tunOfports);
    }

    /** fdb_add's loop over the remote hosts of one tunnel network, each visited once in some order. */
    method AddNetworkHosts(net: NetId, kind: TunnelType, hosts: map<string, seq<FdbEntry>>, remote: set<string>,
                           answers: map<string, Option<int>>)
      requires Valid() && net in localVlanMap && localVlanMap[net].networkType == TunnelNet(kind)
      requires remote <= hosts.Keys && localIp !in remote
      modifies this, intBr
      ensures Valid()
      ensures AddingFrom(old(localVlanMap), old(tunOfports), net, kind, hosts, remote, localIp, localVlanMap, tunOfports)
      ensures availableLocalVlans == old(availableLocalVlans)
      ensures updatedPorts == old(updatedPorts) && deletedPorts == old(deletedPorts)
    {
      ghost var m0 := localVlanMap;
      ghost var r0 := tunOfports;
      assert kind in tunOfports by {
        if kind == Gre {} else {}
      }
      assert FloodPortsOf(hosts, {}, tunOfports[kind]) == {};
      assert m0[net].tunOfports + {} == m0[net].tunOfports;
      WithFloodSpec(m0, net, m0[net].tunOfports, m0[net].tunOfports);
      NoChange(localVlanMap, tunOfports, localIp);
      var rest := remote;
      while rest != {}
        invariant Valid() && rest <= remote
        invariant AddingFrom(m0, r0, net, kind, hosts, remote - rest, localIp, localVlanMap, tunOfports)
        invariant availableLocalVlans == old(availableLocalVlans)
        invariant updatedPorts == old(updatedPorts) && deletedPorts == old(deletedPorts)
        decreases |rest|
      {
        var h := ChooseId(rest);
        AddNetworkHost(net, kind, hosts, h, answers, remote - rest, m0, r0);
        VisitNext(remote, rest, h);
        rest := rest - {h};
      }
      assert remote - rest == remote;
    }

    /**
     * fdb_add for one network of the agent: the agent's own address is
     * dropped from the announced hosts; a network that is not a tunnel
     * network fails with KeyError as soon as one host is left; otherwise
     * every host is handled, and the network's flood set gains the port of
     * each host that sent the flooding entry.
     */
    method FdbAddNetwork(net: NetId, hosts: map<string, seq<FdbEntry>>, answers: map<string, Option<int>>) returns (ok: bool)
      requires Valid() && net in localVlanMap
      modifies this, intBr
      ensures Valid()
      ensures ok <==> old(localVlanMap)[net].networkType.TunnelNet? || hosts.Keys - {localIp} == {}
      ensures !old(localVlanMap)[net].networkType.TunnelNet? ==>
        localVlanMap == old(localVlanMap) && tunOfports == old(tunOfports) && intBr.flows == old(intBr.flows)
      ensures old(localVlanMap)[net].networkType.TunnelNet? ==>
        AddingFrom(old(localVlanMap), old(tunOfports), net, old(localVlanMap)[net].networkType.kind, hosts,
                   hosts.Keys - {localIp}, localIp, localVlanMap, tunOfports)
      ensures FloodSetsGrow(old(localVlanMap), localVlanMap)
      ensures RegistriesGrow(old(tunOfports), tunOfports, localIp)
      ensures availableLocalVlans == old(availableLocalVlans)
      ensures updatedPorts == old(updatedPorts) && deletedPorts == old(deletedPorts)
    {
      NoChange(localVlanMap, tunOfports, localIp);
      var networkType := localVlanMap[net].networkType;
      var remote := hosts.Keys - {localIp};
      if !networkType.TunnelNet? {
        return remote == {};
      }
      AddNetworkHosts(net, networkType.kind, hosts, remote, answers);
      ok := true;
    }

    /** One step of fdb_remove's loop over a network's hosts: the host h is handled by FdbRemoveHost. */
    method RemoveNetworkHost(net: NetId, kind: TunnelType, hosts: map<string, seq<FdbEntry>>, h: string,
                             ghost done: set<string>, ghost m0: map<NetId, LocalVlanMapping>,
                             ghost r0: map<TunnelType, map<string, int>>) returns (ok: bool)
      requires Valid() && net in m0 && m0[net].networkType == TunnelNet(kind)
      requires h in hosts && h !in done
      requires RemovingFrom(m0, r0, net, kind, hosts, done, localVlanMap, tunOfports)
      modifies this, intBr
      ensures Valid()
      ensures ok ==> RemovingFrom(m0, r0, net, kind, hosts, done + {h}, localVlanMap, tunOfports)
      ensures !ok ==>
        && FLOODING_ENTRY in hosts[h]
        && net in localVlanMap && localVlanMap == WithFlood(m0, net, localVlanMap[net].tunOfports)
        && FloodSetsShrink(m0, localVlanMap) && RegistriesShrink(r0, tunOfports, localVlanMap)
      ensures old(deletedPorts) <= deletedPorts
      ensures availableLocalVlans == old(availableLocalVlans) && updatedPorts == old(updatedPorts)
    {
      ghost var m1 := localVlanMap;
      ghost var r1 := tunOfports;
      ok := FdbRemoveHost(net, kind, h, hosts[h]);
      if ok {
        RemovingFromStep(m0, r0, net, kind, hosts, done, h, m1, r1, localVlanMap, tunOfports);
      } else {
        ShrinkTrans(m0, m1, localVlanMap, r0, r1, tunOfports);
        WithFloodSpec(m0, net, m1[net].tunOfports, localVlanMap[net].tunOfports);
      }
    }

    /**
     * fdb_remove's loop over the remote hosts of one tunnel network, each
     * visited once in some order; the KeyError of a failing host ends it.
     */
    method RemoveNetworkHosts(net: NetId, kind: TunnelType, hosts: map<string, seq<FdbEntry>>, remote: set<string>)
      returns (ok: bool)
      requires Valid() && net in localVlanMap && localVlanMap[net].networkType == TunnelNet(kind)
      requires remote <= hosts.Keys
      modifies this, intBr
      ensures Valid()
      ensures ok ==> RemovingFrom(old(localVlanMap), old(tunOfports), net, kind, hosts, remote, localVlanMap, tunOfports)
      ensures !ok ==> exists h :: h in remote && FLOODING_ENTRY in hosts[h]
      ensures net in localVlanMap && localVlanMap == WithFlood(old(localVlanMap), net, localVlanMap[net].tunOfports)
      ensures FloodSetsShrink(old(localVlanMap), localVlanMap) && RegistriesShrink(old(tunOfports), tunOfports, localVlanMap)
      ensures old(deletedPorts) <= deletedPorts
      ensures availableLocalVlans == old(availableLocalVlans) && updatedPorts == old(updatedPorts)
    {
      ghost var m0 := localVlanMap;
      ghost var r0 := tunOfports;
      assert kind in tunOfports by {
        if kind == Gre {} else {}
      }
      assert FloodPortsOf(hosts, {}, tunOfports[kind]) == {};
      assert m0[net].tunOfports - {} == m0[net].tunOfports;
      WithFloodSpec(m0, net, m0[net].tunOfports, m0[net].tunOfports);
      NoChange(localVlanMap, tunOfports, localIp);
      var rest := remote;
      assert remote - rest == {};
      while rest != {}
        invariant Valid() && rest <= remote
        invariant RemovingFrom(m0, r0, net, kind, hosts, remote - rest, localVlanMap, tunOfports)
        invariant old(deletedPorts) <= deletedPorts
        invariant availableLocalVlans == old(availableLocalVlans) && updatedPorts == old(updatedPorts)
        decreases |rest|
      {
        var h := ChooseId(rest);
        ok := RemoveNetworkHost(net, kind, hosts, h, remote - rest, m0, r0);
        if !ok {
          return;
        }
        VisitNext(remote, rest, h);
        rest := rest - {h};
      }
      assert remote - rest == remote;
      ok := true;
    }

    /**
     * fdb_remove for one network of the agent: the agent's own address is
     * dropped from the announced hosts; a network that is not a tunnel
     * network fails with KeyError as soon as one host is left; otherwise
     * the hosts are handled until one fails, and the network's flood set
     * loses the port of each host that sent the flooding entry.
     */
    method FdbRemoveNetwork(net: NetId, hosts: map<string, seq<FdbEntry>>) returns (ok: bool)
      requires Valid() && net in localVlanMap
      modifies this, intBr
      ensures Valid()
      ensures !old(localVlanMap)[net].networkType.TunnelNet? ==>
        && (ok <==> hosts.Keys - {localIp} == {})
        && localVlanMap == old(localVlanMap) && tunOfports == old(tunOfports) && intBr.flows == old(intBr.flows)
      ensures old(localVlanMap)[net].networkType.TunnelNet? && ok ==>
        RemovingFrom(old(localVlanMap), old(tunOfports), net, old(localVlanMap)[net].networkType.kind, hosts,
                     hosts.Keys - {localIp}, localVlanMap, tunOfports)
      ensures old(localVlanMap)[net].networkType.TunnelNet? && !ok ==>
        exists h :: h in hosts.Keys - {localIp} && FLOODING_ENTRY in hosts[h]
      ensures net in localVlanMap && localVlanMap == WithFlood(old(localVlanMap), net, localVlanMap[net].tunOfports)
      ensures FloodSetsShrink(old(localVlanMap), localVlanMap) && RegistriesShrink(old(tunOfports), tunOfports, localVlanMap)
      ensures old(deletedPorts) <= deletedPorts
      ensures availableLocalVlans == old(availableLocalVlans) && updatedPorts == old(updatedPorts)
    {
      NoChange(localVlanMap, tunOfports, localIp);
      WithFloodSpec(localVlanMap, net, localVlanMap[net].tunOfports, localVlanMap[net].tunOfports);
      var networkType := localVlanMap[net].networkType;
      var remote := hosts.Keys - {localIp};
      if !networkType.TunnelNet? {
        return remote == {};
      }
      ok := RemoveNetworkHosts(net, networkType.kind, hosts, remote);
    }

    /** One step of fdb_add's loop over the networks of a message: net is handled unless the agent has no record of it. */
    method AddMessageNetwork(fdb: map<NetId, map<string, seq<FdbEntry>>>, net: NetId, answers: map<string, Option<int>>,
                             ghost done: set<NetId>, ghost m0: map<NetId, LocalVlanMapping>,
                             ghost r0: map<TunnelType, map<string, int>>) returns (ok: bool)
      requires Valid() && net in fdb && net !in done
      requires MessageAddFrom(m0, r0, fdb, done, localIp, localVlanMap, tunOfports)
      modifies this, intBr
      ensures Valid()
      ensures ok <==> !KeyErrorAt(m0, fdb, localIp, net)
      ensures ok ==> MessageAddFrom(m0, r0, fdb, done + {net}, localIp, localVlanMap, tunOfports)
      ensures !ok ==> MessageAddFrom(m0, r0, fdb, done, localIp, localVlanMap, tunOfports)
      ensures availableLocalVlans == old(availableLocalVlans)
      ensures updatedPorts == old(updatedPorts) && deletedPorts == old(deletedPorts)
    {
      ghost var m1 := localVlanMap;
      ghost var r1 := tunOfports;
      ok := true;
      if net in localVlanMap {
        ok := FdbAddNetwork(net, fdb[net], answers);
      }
      if ok {
        MessageAddStep(m0, r0, fdb, done, localIp, net, m1, r1, localVlanMap, tunOfports);
      }
    }

    /**
     * fdb_add: for each network of the message the agent has a record of,
     * a tunnel port to each announced remote host and that host's
     * forwarding entries; a KeyError on a network that is not a tunnel
     * network ends it. Flood sets and registries only grow, networks not
     * in the message keep their records, and, when it completes, each
     * tunnel network of the message has gained the ports of its announced
     * flooding hosts.
     */
    method FdbAdd(fdb: map<NetId, map<string, seq<FdbEntry>>>, answers: map<string, Option<int>>) returns (ok: bool)
      requires Valid()
      modifies this, intBr
      ensures Valid()
      ensures ok <==> !FdbKeyError(old(localVlanMap), fdb, localIp)
      ensures FloodSetsGrow(old(localVlanMap), localVlanMap)
      ensures RegistriesGrow(old(tunOfports), tunOfports, localIp)
      ensures forall n :: n in old(localVlanMap) && n !in fdb ==> localVlanMap[n] == old(localVlanMap)[n]
      ensures ok ==> forall n :: n in fdb && n in old(localVlanMap) && old(localVlanMap)[n].networkType.TunnelNet? ==>
        FloodBounds(old(localVlanMap)[n], localVlanMap[n], fdb[n], localIp, old(tunOfports), tunOfports)
      ensures availableLocalVlans == old(availableLocalVlans)
      ensures updatedPorts == old(updatedPorts) && deletedPorts == old(deletedPorts)
    {
      ghost var done;
      ok, done := AddNetworks(fdb, answers);
    }

    /** fdb_add's loop over the networks of a message, each visited once in some order, up to the first KeyError. */
    method AddNetworks(fdb: map<NetId, map<string, seq<FdbEntry>>>, answers: map<string, Option<int>>)
      returns (ok: bool, ghost done: set<NetId>)
      requires Valid()
      modifies this, intBr
      ensures Valid()
      ensures done <= fdb.Keys && (ok ==> done == fdb.Keys)
      ensures forall n :: n in done ==> !KeyErrorAt(old(localVlanMap), fdb, localIp, n)
      ensures !ok ==> FdbKeyError(old(localVlanMap), fdb, localIp)
      ensures MessageAddFrom(old(localVlanMap), old(tunOfports), fdb, done, localIp, localVlanMap, tunOfports)
      ensures availableLocalVlans == old(availableLocalVlans)
      ensures updatedPorts == old(updatedPorts) && deletedPorts == old(deletedPorts)
    {
      ghost var m0 := localVlanMap;
      ghost var r0 := tunOfports;
      NoChange(localVlanMap, tunOfports, localIp);
      var rest := fdb.Keys;
      done := {};
      while rest != {}
        invariant Valid() && rest <= fdb.Keys && done == fdb.Keys - rest
        invariant MessageAddFrom(m0, r0, fdb, done, localIp, localVlanMap, tunOfports)
        invariant forall n :: n in done ==> !KeyErrorAt(m0, fdb, localIp, n)
        invariant availableLocalVlans == old(availableLocalVlans)
        invariant updatedPorts == old(updatedPorts) && deletedPorts == old(deletedPorts)
        decreases |rest|
      {
        var net := ChooseId(rest);
        ok := AddMessageNetwork(fdb, net, answers, done, m0, r0);
        if !ok {
          assert KeyErrorAt(m0, fdb, localIp, net);
          return;
        }
        VisitNext(fdb.Keys, rest, net);
        rest := rest - {net};
        done := done + {net};
      }
      ok := true;
    }

    /** One step of fdb_remove's loop over the networks of a message: net is handled unless the agent has no record of it. */
    method RemoveMessageNetwork(fdb: map<NetId, map<string, seq<FdbEntry>>>, net: NetId,
                                ghost done: set<NetId>, ghost m0: map<NetId, LocalVlanMapping>,
                                ghost r0: map<TunnelType, map<string, int>>) returns (ok: bool)
      requires Valid() && net in fdb && net !in done && done <= fdb.Keys
      requires MessageRemoveFrom(m0, r0, fdb, done, localIp, localVlanMap, tunOfports)
      modifies this, intBr
      ensures Valid()
      ensures KeyErrorAt(m0, fdb, localIp, net) ==> !ok
      ensures ok ==> MessageRemoveFrom(m0, r0, fdb, done + {net}, localIp, localVlanMap, tunOfports)
      ensures !ok ==> KeyErrorAt(m0, fdb, localIp, net) || FloodingAnnounced(fdb, localIp)
      ensures MessageShrinks(m0, r0, fdb, localVlanMap, tunOfports)
      ensures old(deletedPorts) <= deletedPorts
      ensures availableLocalVlans == old(availableLocalVlans) && updatedPorts == old(updatedPorts)
    {
      ghost var m1 := localVlanMap;
      ghost var r1 := tunOfports;
      ok := true;
      if net in localVlanMap {
        ok := FdbRemoveNetwork(net, fdb[net]);
      }
      if ok {
        MessageRemoveStep(m0, r0, fdb, done, localIp, net, m1, r1, localVlanMap, tunOfports);
      } else {
        ShrinkTrans(m0, m1, localVlanMap, r0, r1, tunOfports);
      }
    }

    /** fdb_remove's loop over the networks of a message, each visited once in some order. */
    method RemoveNetworks(fdb: map<NetId, map<string, seq<FdbEntry>>>) returns (ok: bool)
      requires Valid()
      modifies this, intBr
      ensures Valid()
      ensures ok ==> !FdbKeyError(old(localVlanMap), fdb, localIp)
      ensures ok ==> MessageRemoveFrom(old(localVlanMap), old(tunOfports), fdb, fdb.Keys, localIp, localVlanMap, tunOfports)
      ensures !ok ==> FdbKeyError(old(localVlanMap), fdb, localIp) || FloodingAnnounced(fdb, localIp)
      ensures MessageShrinks(old(localVlanMap), old(tunOfports), fdb, localVlanMap, tunOfports)
      ensures old(deletedPorts) <= deletedPorts
      ensures availableLocalVlans == old(availableLocalVlans) && updatedPorts == old(updatedPorts)
    {
      ghost var m0 := localVlanMap;
      ghost var r0 := tunOfports;
      NoChange(localVlanMap, tunOfports, localIp);
      var rest := fdb.Keys;
      assert fdb.Keys - rest == {};
      while rest != {}
        invariant Valid() && rest <= fdb.Keys
        invariant MessageRemoveFrom(m0, r0, fdb, fdb.Keys - rest, localIp, localVlanMap, tunOfports)
        invariant forall n :: n in fdb.Keys - rest ==> !KeyErrorAt(m0, fdb, localIp, n)
        invariant old(deletedPorts) <= deletedPorts
        invariant availableLocalVlans == old(availableLocalVlans) && updatedPorts == old(updatedPorts)
        decreases |rest|
      {
        var net := ChooseId(rest);
        ok := RemoveMessageNetwork(fdb, net, fdb.Keys - rest, m0, r0);
        if !ok {
          assert KeyErrorAt(m0, fdb, localIp, net) ==> FdbKeyError(m0, fdb, localIp);
          return;
        }
        VisitNext(fdb.Keys, rest, net);
        rest := rest - {net};
      }
      assert fdb.Keys - rest == fdb.Keys;
      ok := true;
    }

    /**
     * fdb_remove: for each network of the message the agent has a record
     * of, each announced remote host's forwarding entries are removed; a
     * KeyError (a network that is not a tunnel network, or a flooding entry
     * whose port is not in the flood set) ends it. Flood sets only shrink,
     * registries only lose entries for unreferenced ports, networks not in
     * the message keep their records, and, when it completes, each tunnel
     * network of the message has lost the ports of its announced flooding
     * hosts.
     */
    method FdbRemove(fdb: map<NetId, map<string, seq<FdbEntry>>>) returns (ok: bool)
      requires Valid()
      modifies this, intBr
      ensures Valid()
      ensures FdbKeyError(old(localVlanMap), fdb, localIp) ==> !ok
      ensures !ok ==> FdbKeyError(old(localVlanMap), fdb, localIp) || FloodingAnnounced(fdb, localIp)
      ensures FloodSetsShrink(old(localVlanMap), localVlanMap)
      ensures RegistriesShrink(old(tunOfports), tunOfports, localVlanMap)
      ensures forall n :: n in old(localVlanMap) && n !in fdb ==> localVlanMap[n] == old(localVlanMap)[n]
      ensures ok ==> forall n :: n in fdb && n in old(localVlanMap) && old(localVlanMap)[n].networkType.TunnelNet? ==>
        FloodRemoved(old(localVlanMap)[n], localVlanMap[n], fdb[n], localIp, old(tunOfports))
      ensures old(deletedPorts) <= deletedPorts
      ensures availableLocalVlans == old(availableLocalVlans) && updatedPorts == old(updatedPorts)
    {
      ok := RemoveNetworks(fdb);
    }

    // ---------------------------------------------- reconciling with the bridge and the plugin

    /**
     * check_changed_vlans: the registered ports that a network has bound and
     * that the bridge (portTags, its port-to-tag dictionary) shows with a
     * tag other than that network's.
     */
    method CheckChangedVlans(registered: set<PortId>, portTags: map<string, int>) returns (changed: set<PortId>)
      ensures changed == ChangedVlans(localVlanMap, registered, portTags)
    {
      var m := localVlanMap;
      changed := {};
      var nets := m.Keys;
      while nets != {}
        invariant nets <= m.Keys && changed <= registered
        invariant forall p :: p in registered ==> (p in changed <==> LostTagAmong(m, m.Keys - nets, p, portTags))
        decreases |nets|
      {
        var n := ChooseId(nets);
        var lvm := m[n];
        var ports := registered;
        while ports != {}
          invariant ports <= registered && changed <= registered
          invariant forall p :: p in registered ==>
            (p in changed <==> LostTagAmong(m, m.Keys - nets, p, portTags) || (p !in ports && LostTagIn(lvm, p, portTags)))
          decreases |ports|
        {
          var p := ChooseId(ports);
          if p in lvm.vifPorts && lvm.vifPorts[p].portName in portTags && portTags[lvm.vifPorts[p].portName] != lvm.vlan {
            changed := changed + {p};
          }
          ports := ports - {p};
        }
        LostTagAmongStep(m, m.Keys - nets, n, portTags);
        assert m.Keys - (nets - {n}) == (m.Keys - nets) + {n};
        nets := nets - {n};
      }
      assert m.Keys - nets == m.Keys;
      forall p | p in registered ensures LostTagAmong(m, m.Keys, p, portTags) <==> LostTag(m, p, portTags) {
      }
    }

    /**
     * scan_ports: the ports on the bridge now (curPorts) against the
     * registered ones. The notified ports (the updated_ports set the caller
     * hands over, which the scan changes in place and gives back as updated)
     * gain the ports that lost their tag and keep only those still on the
     * bridge; they are the ports to rewire.
     */
    method ScanPorts(registered: set<PortId>, notified: set<PortId>, curPorts: set<PortId>, portTags: map<string, int>)
      returns (info: PortInfo, updated: set<PortId>)
      ensures info == ScanResult(registered, notified, curPorts, ChangedVlans(localVlanMap, registered, portTags))
      ensures updated == Get(info.updated)
    {
      var changed := CheckChangedVlans(registered, portTags);
      updated := notified + changed;
      var rewire: Option<set<PortId>> := None;
      if updated != {} {
        updated := updated * curPorts;
        if updated != {} {
          rewire := Some(updated);
        }
      }
      if curPorts == registered {
        return PortInfo(curPorts, rewire, None, None), updated;
      }
      info := PortInfo(curPorts, rewire, Some(curPorts - registered), Some(registered - curPorts));
    }

    /**
     * One device of treat_devices_added_or_updated: a device on the bridge
     * whose details arrived is bound (port_bound) when the plugin wants it
     * up and left alone otherwise (port_dead does nothing); failed tells
     * that its details could not be fetched, and status what the plugin is
     * told: up (update_device_up), down (update_device_down) or nothing.
     */
    method TreatAddedDevice(device: PortId, vifPorts: map<PortId, VifPort>, details: map<PortId, DeviceDetails>)
      returns (failed: bool, status: Option<bool>)
      requires Valid() && ById(vifPorts)
      modifies this, intBr
      ensures Valid()
      ensures failed <==> FetchFailed(vifPorts, details, device)
      ensures status == Status(vifPorts, details, device)
      ensures AddStep(old(localVlanMap), old(availableLocalVlans), localVlanMap, availableLocalVlans, vifPorts, details, device)
      ensures !BindsPort(vifPorts, details, device) ==>
        localVlanMap == old(localVlanMap) && availableLocalVlans == old(availableLocalVlans) && intBr.flows == old(intBr.flows)
      ensures tunOfports == old(tunOfports) && updatedPorts == old(updatedPorts) && deletedPorts == old(deletedPorts)
    {
      if device !in vifPorts {
        return false, None;
      }
      var answer := DetailsOf(details, device);
      if answer.RpcFailed? {
        return true, None;
      }
      if answer.NotDefined? {
        return false, None;
      }
      if answer.adminStateUp {
        var port := vifPorts[device];
        ghost var m1 := localVlanMap;
        var bound, _ := PortBound(port, answer.networkId, answer.networkType, answer.physicalNetwork, answer.segmentationId);
        if bound && answer.networkId in m1 {
          BindInExisting(m1, answer.networkId, port);
        } else if bound {
          BindInNew(m1, answer.networkId, localVlanMap[answer.networkId], port);
        }
      }
      return false, Some(answer.adminStateUp);
    }

    /**
     * treat_devices_added_or_updated: every device is treated in turn (vifPorts
     * is what get_vif_port_by_id finds on the bridge, details what
     * get_device_details answers). A resync is asked for exactly when some
     * device on the bridge had no details; the devices with details are
     * reported up or down by their administrative state. No binding is lost,
     * every new binding is of a treated device, and every device to bind is
     * bound in its network unless the network has no tag and the pool is
     * empty.
     */
    method TreatDevicesAddedOrUpdated(devices: set<PortId>, vifPorts: map<PortId, VifPort>, details: map<PortId, DeviceDetails>)
      returns (resync: bool, up: set<PortId>, down: set<PortId>)
      requires Valid() && ById(vifPorts)
      modifies this, intBr
      ensures Valid()
      ensures resync <==> AddResync(devices, vifPorts, details)
      ensures up == ReportedUp(devices, vifPorts, details) && down == ReportedDown(devices, vifPorts, details)
      ensures AddedFrom(old(localVlanMap), old(availableLocalVlans), localVlanMap, availableLocalVlans, vifPorts, details, devices)
      ensures tunOfports == old(tunOfports) && updatedPorts == old(updatedPorts) && deletedPorts == old(deletedPorts)
    {
      ghost var m0 := localVlanMap;
      ghost var pool0 := availableLocalVlans;
      resync, up, down := false, {}, {};
      var rest := devices;
      while rest != {}
        invariant rest <= devices && Valid()
        invariant AddLoop(m0, pool0, localVlanMap, availableLocalVlans, vifPorts, details, devices - rest, resync, up, down)
        invariant tunOfports == old(tunOfports) && updatedPorts == old(updatedPorts) && deletedPorts == old(deletedPorts)
        decreases |rest|
      {
        var device := ChooseId(rest);
        ghost var m1, pool1 := localVlanMap, availableLocalVlans;
        var failed, status := TreatAddedDevice(device, vifPorts, details);
        AddLoopStep(m0, pool0, m1, pool1, localVlanMap, availableLocalVlans, vifPorts, details, devices - rest, device,
                    resync, up, down, failed);
        VisitOne(devices, rest, device, {});
        resync := resync || failed;
        if status == Some(true) {
          up := up + {device};
        } else if status == Some(false) {
          down := down + {device};
        }
        rest := rest - {device};
      }
      assert devices - rest == devices;
    }

    /**
     * One device of treat_devices_removed: when reporting it down fails it
     * is left alone; otherwise it is unbound (port_unbound) from the
     * network it is found in.
     */
    method TreatRemovedDevice(device: PortId, downFails: set<PortId>) returns (failed: bool)
      requires Valid()
      modifies this, intBr
      ensures Valid()
      ensures failed <==> device in downFails
      ensures failed ==> localVlanMap == old(localVlanMap)
      ensures !failed ==> RemoveStep(old(localVlanMap), localVlanMap, device)
      ensures updatedPorts == old(updatedPorts)
    {
      if device in downFails {
        return true;
      }
      ghost var m1 := localVlanMap;
      var unbound, net, _ := PortUnbound(device, None);
      if unbound {
        UnboundFromStep(m1, localVlanMap, net, device);
      }
      return false;
    }

    /**
     * treat_devices_removed: every device is reported down (downFails are
     * those whose report fails) and then unbound. A resync is asked for
     * exactly when some report failed; those devices keep their bindings,
     * no other binding goes, none comes, and every other device that was
     * bound in one network at most is bound nowhere afterwards.
     */
    method TreatDevicesRemoved(devices: set<PortId>, downFails: set<PortId>) returns (resync: bool)
      requires Valid()
      modifies this, intBr
      ensures Valid()
      ensures resync <==> devices * downFails != {}
      ensures RemovedFrom(old(localVlanMap), localVlanMap, devices, downFails)
      ensures updatedPorts == old(updatedPorts)
    {
      ghost var m0 := localVlanMap;
      resync := false;
      var rest := devices;
      while rest != {}
        invariant rest <= devices && Valid()
        invariant resync <==> (devices - rest) * downFails != {}
        invariant RemovedFrom(m0, localVlanMap, devices - rest, downFails)
        invariant updatedPorts == old(updatedPorts)
        decreases |rest|
      {
        var device := ChooseId(rest);
        ghost var m1 := localVlanMap;
        var failed := TreatRemovedDevice(device, downFails);
        RemovedFromStep(m0, m1, localVlanMap, devices - rest, downFails, device);
        VisitOne(devices, rest, device, downFails);
        resync := resync || failed;
        rest := rest - {device};
      }
      assert devices - rest == devices;
    }

    /**
     * process_network_ports: the added and updated ports are treated
     * together, then the removed ones; a resync is asked for when either
     * pass asks for one. Treated ports not also removed are bound in their
     * network when it exists; removed ports not also treated lose their one
     * binding unless reporting them down failed; no other binding changes.
     */
    method ProcessNetworkPorts(info: PortInfo, vifPorts: map<PortId, VifPort>, details: map<PortId, DeviceDetails>,
                               downFails: set<PortId>) returns (resync: bool, up: set<PortId>, down: set<PortId>)
      requires Valid() && ById(vifPorts)
      modifies this, intBr
      ensures Valid()
      ensures resync <==> NetworkResync(info, vifPorts, details, downFails)
      ensures var devices := Get(info.added) + Get(info.updated);
        up == ReportedUp(devices, vifPorts, details) && down == ReportedDown(devices, vifPorts, details)
      ensures BindingsKept(old(localVlanMap), localVlanMap, Get(info.removed) - downFails)
      ensures BindingsFrom(old(localVlanMap), localVlanMap, Get(info.added) + Get(info.updated))
      ensures forall d ::
        d in Get(info.removed) - downFails && d !in Get(info.added) + Get(info.updated) && BoundAtMostOnce(old(localVlanMap), d)
        ==> BoundNowhere(localVlanMap, d)
      ensures forall d ::
        d in Get(info.added) + Get(info.updated) && d !in Get(info.removed) && BindsPort(vifPorts, details, d)
        && DetailsOf(details, d).networkId in localVlanMap
        ==> IsBound(localVlanMap, DetailsOf(details, d).networkId, d)
      ensures updatedPorts == old(updatedPorts)
    {
      ghost var m0, pool0 := localVlanMap, availableLocalVlans;
      var devices := Get(info.added) + Get(info.updated);
      var resyncAdd, resyncRemoved := false, false;
      up, down := {}, {};
      if devices != {} {
        resyncAdd, up, down := TreatDevicesAddedOrUpdated(devices, vifPorts, details);
      } else {
        assert AddedFrom(m0, pool0, localVlanMap, availableLocalVlans, vifPorts, details, devices);
      }
      ghost var m1, pool1 := localVlanMap, availableLocalVlans;
      if info.removed.Some? {
        resyncRemoved := TreatDevicesRemoved(info.removed.value, downFails);
      } else {
        assert RemovedFrom(m1, localVlanMap, {}, downFails);
      }
      ProcessBindings(m0, pool0, m1, pool1, localVlanMap, vifPorts, details, devices, Get(info.removed), downFails);
      resync := resyncAdd || resyncRemoved;
    }

    /** treat_ancillary_devices_added: a device is reported up unless its details cannot be fetched, which asks for a resync. */
    method TreatAncillaryDevicesAdded(devices: set<PortId>, fetchFails: set<PortId>) returns (resync: bool, up: set<PortId>)
      ensures resync <==> devices * fetchFails != {}
      ensures up == devices - fetchFails
    {
      resync, up := false, {};
      var rest := devices;
      while rest != {}
        invariant rest <= devices
        invariant resync <==> (devices - rest) * fetchFails != {}
        invariant up == (devices - rest) - fetchFails
        decreases |rest|
      {
        var device := ChooseId(rest);
        VisitOne(devices, rest, device, fetchFails);
        if device in fetchFails {
          resync := true;
        } else {
          up := up + {device};
        }
        rest := rest - {device};
      }
      assert devices - rest == devices;
    }

    /** treat_ancillary_devices_removed: each device is reported down; a failed report asks for a resync. */
    method TreatAncillaryDevicesRemoved(devices: set<PortId>, downFails: set<PortId>) returns (resync: bool)
      ensures resync <==> devices * downFails != {}
    {
      resync := false;
      var rest := devices;
      while rest != {}
        invariant rest <= devices
        invariant resync <==> (devices - rest) * downFails != {}
        decreases |rest|
      {
        var device := ChooseId(rest);
        VisitOne(devices, rest, device, downFails);
        if device in downFails {
          resync := true;
        }
        rest := rest - {device};
      }
      assert devices - rest == devices;
    }

    /** process_ancillary_network_ports: the added devices, then the removed ones; a resync when either pass asks for one. */
    method ProcessAncillaryNetworkPorts(info: PortInfo, fetchFails: set<PortId>, downFails: set<PortId>)
      returns (resync: bool, up: set<PortId>)
      ensures resync <==> AncillaryResync(info, fetchFails, downFails)
      ensures up == Get(info.added) - fetchFails
    {
      var resyncAdd, resyncRemoved := false, false;
      up := {};
      if info.added.Some? {
        resyncAdd, up := TreatAncillaryDevicesAdded(info.added.value, fetchFails);
      }
      if info.removed.Some? {
        resyncRemoved := TreatAncillaryDevicesRemoved(info.removed.value, downFails);
      }
      resync := resyncAdd || resyncRemoved;
    }

    /**
     * The body of one polling iteration after the pending port updates
     * (notified) were taken: the bridge is scanned, its ports processed when
     * anything changed or the firewall needs a refresh, and the ancillary
     * bridges' ports diffed and processed when there are such bridges.
     */
    method PollPorts(registered: set<PortId>, ancillaryRegistered: set<PortId>, notified: set<PortId>, obs: PollObservation)
      returns (info: PortInfo, resync: bool, ancillaryPorts: set<PortId>)
      requires Valid() && ById(obs.vifPorts)
      modifies this, intBr
      ensures Valid()
      ensures info == ScanResult(registered, notified, obs.curPorts, ChangedVlans(old(localVlanMap), registered, obs.portTags))
      ensures resync <==> PollResync(info, ancillaryRegistered, obs)
      ensures ancillaryPorts == AncillaryAfter(ancillaryRegistered, obs)
      ensures !Processes(info, obs) ==> localVlanMap == old(localVlanMap)
      ensures Processes(info, obs) ==>
        && BindingsKept(old(localVlanMap), localVlanMap, Get(info.removed) - obs.downFails)
        && BindingsFrom(old(localVlanMap), localVlanMap, Get(info.added) + Get(info.updated))
      ensures updatedPorts == old(updatedPorts)
    {
      var updated;
      info, updated := ScanPorts(registered, notified, obs.curPorts, obs.portTags);
      resync := false;
      if HasChanges(info) || obs.firewallRefreshNeeded {
        var networkResync, _, _ := ProcessNetworkPorts(info, obs.vifPorts, obs.details, obs.downFails);
        resync := networkResync;
      }
      ancillaryPorts := ancillaryRegistered;
      if |obs.ancillaryBridges| > 0 {
        var pass := UpdateAncillaryPorts(ancillaryRegistered, obs.ancillaryBridges);
        if pass.Some? {
          var rc, _ := ProcessAncillaryNetworkPorts(pass.value, obs.ancillaryFetchFails, obs.ancillaryDownFails);
          ancillaryPorts := pass.value.current;
          resync := resync || rc;
        }
      }
    }

    /**
     * One iteration of ovsdb_monitor_loop. A resync clears the registered
     * ports and forces a poll; tunnels are announced while that is pending.
     * When there is anything to poll, the pending port updates are taken
     * (and updated_ports emptied) before the scan; if reading the bridge
     * raises, they are put back and a resync is asked for. So no pending
     * update is lost: it is still pending, or its port has left the bridge,
     * or the scan marked it to be rewired.
     */
    method PollOnce(st: LoopState, obs: PollObservation) returns (next: LoopState, info: Option<PortInfo>)
      requires Valid() && ById(obs.vifPorts)
      modifies this, intBr
      ensures Valid()
      ensures next.tunnelSync == (if enableTunneling && st.tunnelSync then obs.tunnelSyncFailed else st.tunnelSync)
      ensures !Polls(st, obs, old(updatedPorts)) ==>
        && info.None? && next == st.(tunnelSync := next.tunnelSync)
        && updatedPorts == old(updatedPorts) && localVlanMap == old(localVlanMap)
      ensures Polls(st, obs, old(updatedPorts)) && obs.scanFailed ==>
        && info.None? && next.sync
        && next.ports == Registered(st) && next.ancillaryPorts == AncillaryRegistered(st)
        && updatedPorts == old(updatedPorts) && localVlanMap == old(localVlanMap)
      ensures Polls(st, obs, old(updatedPorts)) && !obs.scanFailed ==>
        && info == Some(ScanResult(Registered(st), old(updatedPorts), obs.curPorts,
                                   ChangedVlans(old(localVlanMap), Registered(st), obs.portTags)))
        && (next.sync <==> PollResync(info.value, AncillaryRegistered(st), obs))
        && next.ports == obs.curPorts && next.ancillaryPorts == AncillaryAfter(AncillaryRegistered(st), obs)
        && updatedPorts == {}
      ensures forall p :: p in old(updatedPorts) ==>
        p in updatedPorts || (info.Some? && (p !in info.value.current || p in Get(info.value.updated)))
    {
      var sync, ports, ancillaryPorts, tunnelSync := st.sync, st.ports, st.ancillaryPorts, st.tunnelSync;
      var forced := false;
      if sync {
        ports, ancillaryPorts, sync, forced := {}, {}, false, true;
      }
      if enableTunneling && tunnelSync {
        tunnelSync := obs.tunnelSyncFailed;
      }
      info := None;
      if forced || obs.pollingRequired || updatedPorts != {} || obs.firewallRefreshNeeded {
        var updatedPortsCopy := updatedPorts;
        updatedPorts := {};
        if obs.scanFailed {
          updatedPorts := updatedPorts + updatedPortsCopy;
          sync := true;
        } else {
          var portInfo, resync;
          portInfo, resync, ancillaryPorts := PollPorts(ports, ancillaryPorts, updatedPortsCopy, obs);
          ScanResultSpec(ports, updatedPortsCopy, obs.curPorts, ChangedVlans(old(localVlanMap), ports, obs.portTags));
          ports := portInfo.current;
          sync := resync;
          info := Some(portInfo);
        }
      }
      next := LoopState(sync, ports, ancillaryPorts, tunnelSync);
    }
  }
}
