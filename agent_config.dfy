/**
 * create_agent_config_map: the agent's constructor arguments from the
 * [OVS] and [AGENT] configuration sections, with the tunnel settings
 * checked.
 */
module AgentConfig {
  import opened Wrappers
  import opened Constants

  /** The [OVS] options the agent reads. */
  datatype OvsOptions = OvsOptions(
    integrationBridge: string,
    localIp: string,
    enableTunneling: bool)

  /** The [AGENT] options the agent reads. */
  datatype AgentOptions = AgentOptions(
    rootHelper: string,
    pollingInterval: int,
    minimizePolling: bool,
    tunnelTypes: seq<string>,
    vethMtu: Option<int>,
    l2Population: bool)

  datatype Config = Config(ovs: OvsOptions, agent: AgentOptions)

  /** The keyword arguments the agent is constructed with. */
  datatype AgentConfigMap = AgentConfigMap(
    integBr: string,
    localIp: string,
    bridgeMappings: map<string, string>,
    rootHelper: string,
    pollingInterval: int,
    minimizePolling: bool,
    tunnelTypes: seq<string>,
    vethMtu: Option<int>,
    l2Population: bool,
    ovsdbMonitorRespawnInterval: int)

  /** Why the configuration was refused (the ValueError the agent raises). */
  datatype ConfigError =
    | BadBridgeMappings(reason: string)
    | InvalidTunnelType(name: string)
    | NoLocalIp

  /** A tunnel type the agent supports: 'gre' or 'vxlan'. */
  predicate IsTunnelNetworkType(name: string)
  {
    ParseTunnelType(name).Some?
  }

  /** The tunnel types in effect: 'gre' alone when tunnelling is enabled and none is named. */
  function EffectiveTunnelTypes(config: Config): (r: seq<string>)
    ensures config.ovs.enableTunneling ==> r != []
    ensures config.agent.tunnelTypes != [] ==> r == config.agent.tunnelTypes
  {
    if config.ovs.enableTunneling && config.agent.tunnelTypes == [] then [TunnelTypeName(Gre)]
    else config.agent.tunnelTypes
  }

  /**
   * The check of the tunnel types, in list order: the first name that is
   * not a tunnel type is reported, unless an earlier valid name already
   * found the local IP missing. None when every name is valid and, if
   * there is any, the local IP is set.
   */
  function CheckTunnelTypes(tunnelTypes: seq<string>, localIp: string): (r: Option<ConfigError>)
    ensures r.None? <==> (forall i :: 0 <= i < |tunnelTypes| ==> IsTunnelNetworkType(tunnelTypes[i]))
                         && (tunnelTypes != [] ==> localIp != "")
    ensures r == Some(NoLocalIp) ==> localIp == "" && tunnelTypes != [] && IsTunnelNetworkType(tunnelTypes[0])
    ensures r.Some? && r.value.InvalidTunnelType? ==>
      exists i :: 0 <= i < |tunnelTypes| && tunnelTypes[i] == r.value.name && !IsTunnelNetworkType(tunnelTypes[i])
         && (forall j :: 0 <= j < i ==> IsTunnelNetworkType(tunnelTypes[j]))
    ensures r.None? || r.value.InvalidTunnelType? || r.value.NoLocalIp?
  {
    if tunnelTypes == [] then None
    else if !IsTunnelNetworkType(tunnelTypes[0]) then
      Some(InvalidTunnelType(tunnelTypes[0]))
    else if localIp == "" then Some(NoLocalIp)
    else
      var rest := CheckTunnelTypes(tunnelTypes[1..], localIp);
      if rest.Some? && rest.value.InvalidTunnelType? then
        var i :| 0 <= i < |tunnelTypes[1..]| && tunnelTypes[1..][i] == rest.value.name
                 && !IsTunnelNetworkType(tunnelTypes[1..][i])
                 && (forall j :: 0 <= j < i ==> IsTunnelNetworkType(tunnelTypes[1..][j]));
        assert tunnelTypes[i + 1] == tunnelTypes[1..][i];
        assert forall j :: 1 <= j < i + 1 ==> tunnelTypes[j] == tunnelTypes[1..][j - 1];
        rest
      else
        assert rest.None? ==> forall i :: 1 <= i < |tunnelTypes| ==> tunnelTypes[i] == tunnelTypes[1..][i - 1];
        rest
  }

  /**
   * create_agent_config_map: the constructor arguments, or the error the
   * configuration is refused with. parse_mappings is not part of this
   * model: its outcome on bridge_mappings is the parameter parsedMappings;
   * the default respawn interval is the parameter defaultRespawnInterval.
   */
  function CreateAgentConfigMap(config: Config, parsedMappings: Result<map<string, string>, string>,
                                defaultRespawnInterval: int): (r: Result<AgentConfigMap, ConfigError>)
    ensures parsedMappings.Err? ==> r == Err(BadBridgeMappings(parsedMappings.error))
    ensures r.Ok? <==> parsedMappings.Ok?
                       && (forall t :: t in EffectiveTunnelTypes(config) ==> IsTunnelNetworkType(t))
                       && (EffectiveTunnelTypes(config) != [] ==> config.ovs.localIp != "")
    ensures r.Ok? ==> r.value.tunnelTypes == EffectiveTunnelTypes(config)
                      && r.value.bridgeMappings == parsedMappings.value
                      && r.value.localIp == config.ovs.localIp
                      && r.value.integBr == config.ovs.integrationBridge
    ensures r.Ok? && config.ovs.enableTunneling ==> r.value.tunnelTypes != [] && r.value.localIp != ""
  {
    match parsedMappings
    case Err(reason) => Err(BadBridgeMappings(reason))
    case Ok(mappings) =>
      var tunnelTypes := EffectiveTunnelTypes(config);
      var checked := CheckTunnelTypes(tunnelTypes, config.ovs.localIp);
      if checked.Some? then Err(checked.value)
      else
        Ok(AgentConfigMap(
          config.ovs.integrationBridge, config.ovs.localIp, mappings, config.agent.rootHelper,
          config.agent.pollingInterval, config.agent.minimizePolling, tunnelTypes, config.agent.vethMtu,
          config.agent.l2Population, defaultRespawnInterval))
  }
}
