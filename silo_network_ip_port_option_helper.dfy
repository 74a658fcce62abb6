/** `SiloNetworkIpPortOptionHelper.HasAzureWebAppSiloNetworkIpPortOption`:
    the silo's address and ports from the private IP and the comma-separated
    private ports that a web app with virtual network integration is given.
    The two environment variables and `IPAddress.TryParse` are passed in. */
module SiloNetworkIpPortOptionHelper {
  import opened Wrappers
  import opened Text
  import opened Int32Text
  import opened Net
  import opened SiloOptions

  const PortSeparator: char := ','

  /** `privateIpStr` is `WEBSITE_PRIVATE_IP` and `privatePorts` is
      `WEBSITE_PRIVATE_PORTS` (`None` when unset). `None` as the result is the
      `false` return with a null option; `Some(o)` is `true` with `o`. */
  function HasAzureWebAppSiloNetworkIpPortOption(privateIpStr: Option<string>,
                                                 privatePorts: Option<string>,
                                                 tryParseIp: IpParser): (r: Option<SiloNetworkIpPort>)
    ensures r.Some? <==>
      && privateIpStr.Some? && tryParseIp(privateIpStr.value).Some?
      && privatePorts.Some? && |Split(privatePorts.value, PortSeparator)| >= 2
      && TryParseInt32(Some(Split(privatePorts.value, PortSeparator)[0])).Some?
      && TryParseInt32(Some(Split(privatePorts.value, PortSeparator)[1])).Some?
    ensures r.Some? ==>
      var ports := Split(privatePorts.value, PortSeparator);
      && r.value.siloIpAddress == tryParseIp(privateIpStr.value).value
      && r.value.siloPort == TryParseInt32(Some(ports[0])).value
      && r.value.gatewayPort == TryParseInt32(Some(ports[1])).value
      && r.value.disableGateway
      && !r.value.listenOnAnyHostAddress
  {
    var ipAddress := if privateIpStr.Some? then tryParseIp(privateIpStr.value) else None;
    var privatePort := if privatePorts.Some? then Some(Split(privatePorts.value, PortSeparator)) else None;
    if ipAddress.Some? && privatePort.Some? && |privatePort.value| >= 2 then
      var siloPort := TryParseInt32(Some(privatePort.value[0]));
      var gatewayPort := TryParseInt32(Some(privatePort.value[1]));
      if siloPort.Some? && gatewayPort.Some? then
        Some(Initial.WithSiloIpAddress(ipAddress.value)
                    .WithSiloPort(siloPort.value)
                    .WithGatewayPort(gatewayPort.value))
      else None
    else None
  }

  /** Port entries after the second do not change the result. */
  lemma ExtraPortsIgnored(privateIpStr: Option<string>, first: string, second: string,
                            rest: string, tryParseIp: IpParser)
    requires PortSeparator !in first && PortSeparator !in second
    ensures HasAzureWebAppSiloNetworkIpPortOption(privateIpStr, Some(first + [PortSeparator] + second + [PortSeparator] + rest), tryParseIp)
         == HasAzureWebAppSiloNetworkIpPortOption(privateIpStr, Some(first + [PortSeparator] + second), tryParseIp)
  {
    var long := first + [PortSeparator] + second + [PortSeparator] + rest;
    var tail := second + [PortSeparator] + rest;
    assert long == first + [PortSeparator] + tail;
    SplitAtSeparator(first, PortSeparator, tail);
    SplitAtSeparator(second, PortSeparator, rest);
    SplitAtSeparator(first, PortSeparator, second);
    SplitWithoutSeparator(second, PortSeparator);
  }

  /** An unset ports variable, or one without a comma (the empty string
      included), gives no option whatever the address. */
  lemma FewerThanTwoPortsFail(privateIpStr: Option<string>, ports: string, tryParseIp: IpParser)
    requires PortSeparator !in ports
    ensures HasAzureWebAppSiloNetworkIpPortOption(privateIpStr, None, tryParseIp).None?
    ensures HasAzureWebAppSiloNetworkIpPortOption(privateIpStr, Some(ports), tryParseIp).None?
    ensures HasAzureWebAppSiloNetworkIpPortOption(privateIpStr, Some([]), tryParseIp).None?
  {
    SplitWithoutSeparator(ports, PortSeparator);
    SplitWithoutSeparator([], PortSeparator);
  }

  /** An unset or unparseable address gives no option whatever the ports. */
  lemma BadAddressFails(privateIpStr: Option<string>, privatePorts: Option<string>, tryParseIp: IpParser)
    requires privateIpStr.None? || tryParseIp(privateIpStr.value).None?
    ensures HasAzureWebAppSiloNetworkIpPortOption(privateIpStr, privatePorts, tryParseIp).None?
  {
  }

  /** The decimal text of a port holds no comma. */
  lemma FormattedPortHasNoSeparator(n: Int32)
    ensures PortSeparator !in FormatInt32(n)
  {
  }

  /** A parseable address with two written-out ports yields exactly those
      ports, and the gateway stays disabled from the constructor even when
      its port is not 0. */
  lemma TwoPortsAreRead(ip: string, siloPort: Int32, gatewayPort: Int32, tryParseIp: IpParser)
    requires tryParseIp(ip).Some?
    ensures var r := HasAzureWebAppSiloNetworkIpPortOption(
              Some(ip), Some(FormatInt32(siloPort) + [PortSeparator] + FormatInt32(gatewayPort)), tryParseIp);
      && r.Some?
      && r.value.siloIpAddress == tryParseIp(ip).value
      && r.value.siloPort == siloPort && r.value.gatewayPort == gatewayPort
      && r.value.disableGateway
      && (GatewayConsistent(r.value) <==> gatewayPort == 0)
  {
    var a := FormatInt32(siloPort);
    var b := FormatInt32(gatewayPort);
    FormattedPortHasNoSeparator(siloPort);
    FormattedPortHasNoSeparator(gatewayPort);
    assert Join([a, b], PortSeparator) == a + [PortSeparator] + b;
    SplitJoin([a, b], PortSeparator);
    ParseFormatRoundTrip(siloPort);
    ParseFormatRoundTrip(gatewayPort);
  }
}
