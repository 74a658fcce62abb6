/** The decisions the backend silo host makes while configuring Orleans
    (`Program.Main`, the `UseOrleans` callback): the clustering mode, the
    cluster identity, the exposed ports and the silo's IP address. Every value
    the host reads from configuration, the environment or DNS is a field of
    `HostSignals`; `IPAddress.Parse` is passed in. */
module SiloHost {
  import opened Wrappers
  import opened Text
  import opened Int32Text
  import opened Net
  import opened SiloOptions
  import opened ClusterOptionsHelper
  import opened ContainerRunHelper

  /** Which membership provider the silo builder is given, if any. */
  datatype ClusteringMode = AzureTableClustering | LocalSingleSilo | NoClusteringConfigured

  /** What the host reads. The configuration fields (`serviceUrl`,
      `configuredClusterId`, `configuredServiceId`) carry the value as bound,
      class defaults included; the environment-variable fields are `None`
      when the variable is absent. `IsNullOrEmpty` treats `None` and an
      empty value alike. */
  datatype HostSignals = HostSignals(
    /** `AzureTableCluster:ServiceUrl` */
    serviceUrl: Option<string>,
    /** `IHostEnvironment.IsDevelopment()` */
    isDevelopment: bool,
    /** `OrleansCluster:ClusterId` and `OrleansCluster:ServiceId` as bound */
    configuredClusterId: Option<string>,
    configuredServiceId: Option<string>,
    /** `ACI:OpenPorts` */
    exposedPorts: Option<seq<Int32>>,
    /** `Fabric_NET-0-[Delegated]` */
    vnetIp: Option<string>,
    /** `Fabric_NodeIPOrFQDN` */
    nodeIpOrFqdn: Option<string>,
    /** `DOTNET_RUNNING_IN_CONTAINER` */
    runningInContainer: Option<string>,
    /** The address list DNS reports for this host */
    hostAddresses: seq<IpAddress>)

  /** The exceptions the callback can throw. */
  datatype StartupError =
    | InvalidOperation(message: string)
    | IpAddressFormat(text: string)

  const MissingPortsMessage: string := "Cannot find exposed ports configuration for Orleans silo"
  const DefaultClusterId: string := "cluster-single-slot"
  const DefaultServiceId: string := "OrleansUrlShortener"

  /** What the callback hands to the silo builder when it does not throw. */
  datatype SiloSetup = SiloSetup(
    clustering: ClusteringMode,
    clusterOptions: ClusterOptions,
    networkOption: SiloNetworkIpPort)

  /** A non-empty table service URL wins even in Development; local
      single-silo clustering needs both an empty URL and Development. */
  function ChooseClustering(serviceUrl: Option<string>, isDevelopment: bool): (m: ClusteringMode)
    ensures m == AzureTableClustering <==> !IsNullOrEmpty(serviceUrl)
    ensures m == LocalSingleSilo <==> IsNullOrEmpty(serviceUrl) && isDevelopment
    ensures m == NoClusteringConfigured <==> IsNullOrEmpty(serviceUrl) && !isDevelopment
  {
    if !IsNullOrEmpty(serviceUrl) then AzureTableClustering
    else if isDevelopment then LocalSingleSilo
    else NoClusteringConfigured
  }

  /** The configured cluster identity, or the single-slot defaults as a pair
      when either part is missing. */
  function ResolveClusterOptions(clusterId: Option<string>, serviceId: Option<string>): (r: ClusterOptions)
    ensures r.clusterId != [] && r.serviceId != []
    ensures !IsNullOrEmpty(clusterId) && !IsNullOrEmpty(serviceId) ==>
      r.clusterId == clusterId.value && r.serviceId == serviceId.value
    ensures IsNullOrEmpty(clusterId) || IsNullOrEmpty(serviceId) ==>
      r.clusterId == DefaultClusterId && r.serviceId == DefaultServiceId
  {
    if IsNullOrEmpty(clusterId) || IsNullOrEmpty(serviceId) then
      ClusterOptions(DefaultClusterId, DefaultServiceId)
    else
      ClusterOptions(clusterId.value, serviceId.value)
  }

  /** `IPAddress.Parse`: a malformed address throws. */
  function ParseIp(text: string, parseIp: IpParser): (r: Result<IpAddress, StartupError>)
    ensures r.Success? <==> parseIp(text).Some?
    ensures r.Success? ==> r.value == parseIp(text).value
    ensures r.Failure? ==> r.error == IpAddressFormat(text)
  {
    match parseIp(text)
    case Some(ip) => Success(ip)
    case None => Failure(IpAddressFormat(text))
  }

  /** The silo address: the vnet variable if set, else the node variable if
      set, else (in a container) the first IPv4 address of the host, else
      loopback. */
  function ResolveSiloIp(vnetIp: Option<string>, nodeIpOrFqdn: Option<string>, isInContainer: bool,
                         hostAddresses: seq<IpAddress>, parseIp: IpParser): Result<IpAddress, StartupError>
  {
    var siloIpAddr := Loopback;
    if !IsNullOrEmpty(vnetIp) then ParseIp(vnetIp.value, parseIp)
    else if !IsNullOrEmpty(nodeIpOrFqdn) then ParseIp(nodeIpOrFqdn.value, parseIp)
    else if isInContainer then
      var containerIp := FirstInterNetwork(hostAddresses);
      if containerIp.Some? then Success(containerIp.value) else Success(siloIpAddr)
    else Success(siloIpAddr)
  }

  /** The whole callback: clustering, cluster identity, the ports check
      (which throws before any address is looked at) and the network option. */
  function ConfigureSilo(s: HostSignals, parseIp: IpParser): Result<SiloSetup, StartupError>
  {
    var clustering := ChooseClustering(s.serviceUrl, s.isDevelopment);
    var clusterOptions := ResolveClusterOptions(s.configuredClusterId, s.configuredServiceId);
    if s.exposedPorts.None? || |s.exposedPorts.value| < 2 then
      Failure(InvalidOperation(MissingPortsMessage))
    else
      var isInContainer := IsRunningInContainer(s.runningInContainer);
      match ResolveSiloIp(s.vnetIp, s.nodeIpOrFqdn, isInContainer, s.hostAddresses, parseIp)
      case Failure(e) => Failure(e)
      case Success(siloIpAddr) =>
        var ports := s.exposedPorts.value;
        var option := Initial.WithSiloIpAddress(siloIpAddr)
                             .WithListenOnAnyHostAddress(true)
                             .WithSiloPort(ports[0])
                             .WithGatewayPort(ports[1]);
        Success(SiloSetup(clustering, clusterOptions, option))
  }

  /** One empty part is enough to replace both parts of the identity. */
  lemma OneMissingPartReplacesBoth(clusterId: string, serviceId: Option<string>)
    requires clusterId != [] && IsNullOrEmpty(serviceId)
    ensures ResolveClusterOptions(Some(clusterId), serviceId).clusterId == DefaultClusterId
  {
  }

  /** Fewer than two exposed ports is fatal, in Development too, whatever
      the address variables hold (a malformed one is never parsed). */
  lemma MissingPortsFailFirst(s: HostSignals, parseIp: IpParser)
    requires s.exposedPorts.None? || |s.exposedPorts.value| < 2
    ensures ConfigureSilo(s, parseIp) == Failure(InvalidOperation(MissingPortsMessage))
  {
  }

  /** With the ports present, the callback fails only when the chosen address
      variable does not parse; otherwise the option carries the address the
      priority chain picked, listens on any address, takes the first two
      ports in order, keeps the constructor's disabled gateway, and carries
      the clustering and identity decided above. */
  lemma ConfiguredSiloShape(s: HostSignals, parseIp: IpParser)
    requires s.exposedPorts.Some? && |s.exposedPorts.value| >= 2
    ensures var r := ConfigureSilo(s, parseIp);
      && (r.Failure? <==>
           (!IsNullOrEmpty(s.vnetIp) && parseIp(s.vnetIp.value).None?)
           || (IsNullOrEmpty(s.vnetIp) && !IsNullOrEmpty(s.nodeIpOrFqdn) && parseIp(s.nodeIpOrFqdn.value).None?))
      && (r.Success? ==>
           && r.value.networkOption.siloIpAddress
              == ResolveSiloIp(s.vnetIp, s.nodeIpOrFqdn, IsRunningInContainer(s.runningInContainer),
                               s.hostAddresses, parseIp).value
           && r.value.networkOption.listenOnAnyHostAddress
           && r.value.networkOption.siloPort == s.exposedPorts.value[0]
           && r.value.networkOption.gatewayPort == s.exposedPorts.value[1]
           && r.value.networkOption.disableGateway
           && r.value.clustering == ChooseClustering(s.serviceUrl, s.isDevelopment)
           && r.value.clusterOptions == ResolveClusterOptions(s.configuredClusterId, s.configuredServiceId))
  {
  }

  /** Ports after the second one change nothing. */
  lemma ExtraExposedPortsIgnored(s: HostSignals, more: seq<Int32>, parseIp: IpParser)
    requires s.exposedPorts.Some? && |s.exposedPorts.value| >= 2
    ensures ConfigureSilo(s.(exposedPorts := Some(s.exposedPorts.value + more)), parseIp)
         == ConfigureSilo(s, parseIp)
  {
    var t := s.(exposedPorts := Some(s.exposedPorts.value + more));
    assert t.exposedPorts.value[0] == s.exposedPorts.value[0];
    assert t.exposedPorts.value[1] == s.exposedPorts.value[1];
  }

  /** The address source priority: a set vnet variable decides alone, even
      when it does not parse; then the node variable; the DNS list only in a
      container; loopback when nothing else applies. */
  lemma SiloIpPriority(vnetIp: Option<string>, nodeIpOrFqdn: Option<string>, isInContainer: bool,
                       hostAddresses: seq<IpAddress>, parseIp: IpParser)
    ensures !IsNullOrEmpty(vnetIp) ==>
      ResolveSiloIp(vnetIp, nodeIpOrFqdn, isInContainer, hostAddresses, parseIp) == ParseIp(vnetIp.value, parseIp)
    ensures IsNullOrEmpty(vnetIp) && !IsNullOrEmpty(nodeIpOrFqdn) ==>
      ResolveSiloIp(vnetIp, nodeIpOrFqdn, isInContainer, hostAddresses, parseIp) == ParseIp(nodeIpOrFqdn.value, parseIp)
    ensures !isInContainer ==>
      forall other: seq<IpAddress> ::
        ResolveSiloIp(vnetIp, nodeIpOrFqdn, isInContainer, other, parseIp)
        == ResolveSiloIp(vnetIp, nodeIpOrFqdn, isInContainer, hostAddresses, parseIp)
    ensures IsNullOrEmpty(vnetIp) && IsNullOrEmpty(nodeIpOrFqdn) ==>
      ResolveSiloIp(vnetIp, nodeIpOrFqdn, isInContainer, hostAddresses, parseIp)
      == Success(if isInContainer && FirstInterNetwork(hostAddresses).Some?
                 then FirstInterNetwork(hostAddresses).value else Loopback)
  {
  }

  /** A resolved address always comes from one of the four sources, and a
      failure always names the variable text that did not parse. */
  lemma SiloIpProvenance(vnetIp: Option<string>, nodeIpOrFqdn: Option<string>,
                         isInContainer: bool, hostAddresses: seq<IpAddress>,
                         parseIp: IpParser)
    ensures var r := ResolveSiloIp(vnetIp, nodeIpOrFqdn, isInContainer, hostAddresses, parseIp);
      && (r.Success? ==>
           || (vnetIp.Some? && parseIp(vnetIp.value) == Some(r.value))
           || (nodeIpOrFqdn.Some? && parseIp(nodeIpOrFqdn.value) == Some(r.value))
           || (isInContainer && r.value in hostAddresses && r.value.family == InterNetwork)
           || r.value == Loopback)
      && (r.Failure? ==>
           || (vnetIp.Some? && r.error == IpAddressFormat(vnetIp.value) && parseIp(vnetIp.value).None?)
           || (nodeIpOrFqdn.Some? && r.error == IpAddressFormat(nodeIpOrFqdn.value)
               && parseIp(nodeIpOrFqdn.value).None?))
  {
    var c := FirstInterNetwork(hostAddresses);
    if IsNullOrEmpty(vnetIp) && IsNullOrEmpty(nodeIpOrFqdn) && isInContainer && c.Some? {
      var k :| 0 <= k < |hostAddresses| && hostAddresses[k] == c.value
        && forall m :: 0 <= m < k ==> hostAddresses[m].family != InterNetwork;
      assert c.value in hostAddresses;
    }
  }

  /** In a container whose host has no IPv4 address, the silo falls back to
      loopback rather than failing. */
  lemma NoContainerAddressKeepsLoopback(s: HostSignals, parseIp: IpParser)
    requires s.exposedPorts.Some? && |s.exposedPorts.value| >= 2
    requires IsNullOrEmpty(s.vnetIp) && IsNullOrEmpty(s.nodeIpOrFqdn)
    requires forall k :: 0 <= k < |s.hostAddresses| ==> s.hostAddresses[k].family != InterNetwork
    ensures ConfigureSilo(s, parseIp).Success?
    ensures ConfigureSilo(s, parseIp).value.networkOption.siloIpAddress == Loopback
  {
  }
}
