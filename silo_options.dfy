/** `SiloNetworkIpPortOption`: the silo's bind address and ports, a mutable
    object whose `DisableGateway` setter also clears `GatewayPort`. */
module SiloOptions {
  import opened Net
  import opened Int32Text

  /** The option's observable properties at one moment. The `With...` functions
      are its property setters; an object initializer `new X { A = a, B = b }`
      is `Initial.WithA(a).WithB(b)`. */
  datatype SiloNetworkIpPort = SiloNetworkIpPort(
    siloIpAddress: IpAddress,
    listenOnAnyHostAddress: bool,
    disableGateway: bool,
    siloPort: Int32,
    gatewayPort: Int32)
  {
    function WithSiloIpAddress(ip: IpAddress): SiloNetworkIpPort {
      this.(siloIpAddress := ip)
    }

    function WithListenOnAnyHostAddress(value: bool): SiloNetworkIpPort {
      this.(listenOnAnyHostAddress := value)
    }

    /** The `DisableGateway` setter: `true` also resets `GatewayPort` to 0. */
    function WithDisableGateway(value: bool): SiloNetworkIpPort {
      if value then this.(gatewayPort := 0, disableGateway := true)
      else this.(disableGateway := false)
    }

    function WithSiloPort(port: Int32): SiloNetworkIpPort {
      this.(siloPort := port)
    }

    function WithGatewayPort(port: Int32): SiloNetworkIpPort {
      this.(gatewayPort := port)
    }
  }

  /** What the constructor leaves: any address, both ports 0, gateway disabled,
      and the flag `ListenOnAnyHostAddress` at its default `false`. */
  const Initial := SiloNetworkIpPort(Any, false, true, 0, 0)

  /** The coupling the `DisableGateway` setter establishes. */
  predicate GatewayConsistent(o: SiloNetworkIpPort) {
    o.disableGateway ==> o.gatewayPort == 0
  }

  /** `DisableGateway` reads back the value last assigned; `true` zeroes the
      gateway port and `false` leaves it alone; nothing else moves. */
  lemma DisableGatewaySetter(o: SiloNetworkIpPort, value: bool)
    ensures o.WithDisableGateway(value).disableGateway == value
    ensures o.WithDisableGateway(value).gatewayPort == if value then 0 else o.gatewayPort
    ensures o.WithDisableGateway(value).siloIpAddress == o.siloIpAddress
    ensures o.WithDisableGateway(value).siloPort == o.siloPort
    ensures o.WithDisableGateway(value).listenOnAnyHostAddress == o.listenOnAnyHostAddress
    ensures GatewayConsistent(o.WithDisableGateway(value))
  {
  }

  /** Every setter but `GatewayPort` keeps the coupling; `GatewayPort` keeps it
      exactly when the gateway is enabled or the new port is 0, because it does
      not touch `DisableGateway`. */
  lemma SettersAndGatewayCoupling(o: SiloNetworkIpPort, ip: IpAddress, flag: bool, port: Int32)
    requires GatewayConsistent(o)
    ensures GatewayConsistent(o.WithSiloIpAddress(ip))
    ensures GatewayConsistent(o.WithListenOnAnyHostAddress(flag))
    ensures GatewayConsistent(o.WithSiloPort(port))
    ensures GatewayConsistent(o.WithDisableGateway(flag))
    ensures GatewayConsistent(o.WithGatewayPort(port)) <==> !o.disableGateway || port == 0
    ensures o.WithGatewayPort(port).disableGateway == o.disableGateway
  {
  }

  /** The coupling holds for a new option and is lost by one `GatewayPort` assignment. */
  lemma GatewayCouplingOnlyPartlyMaintained()
    ensures GatewayConsistent(Initial)
    ensures !GatewayConsistent(Initial.WithGatewayPort(30000))
  {
  }

  class SiloNetworkIpPortOption {
    var siloIpAddress: IpAddress
    var listenOnAnyHostAddress: bool
    /** The backing field `_disableGateway`. */
    var disableGateway: bool
    var siloPort: Int32
    var gatewayPort: Int32

    function View(): SiloNetworkIpPort
      reads this
    {
      SiloNetworkIpPort(siloIpAddress, listenOnAnyHostAddress, disableGateway, siloPort, gatewayPort)
    }

    constructor()
      ensures View() == Initial
      ensures siloIpAddress == Any && siloPort == 0 && gatewayPort == 0
      ensures disableGateway && !listenOnAnyHostAddress
    {
      siloIpAddress := Any;
      siloPort := 0;
      disableGateway := true;
      gatewayPort := 0;
      listenOnAnyHostAddress := false;
    }

    method SetSiloIpAddress(ip: IpAddress)
      modifies this
      ensures View() == old(View()).WithSiloIpAddress(ip)
    {
      siloIpAddress := ip;
    }

    method SetListenOnAnyHostAddress(value: bool)
      modifies this
      ensures View() == old(View()).WithListenOnAnyHostAddress(value)
    {
      listenOnAnyHostAddress := value;
    }

    /** The `DisableGateway` setter writes two fields. */
    method SetDisableGateway(value: bool)
      modifies this
      ensures View() == old(View()).WithDisableGateway(value)
      ensures disableGateway == value
      ensures gatewayPort == if value then 0 else old(gatewayPort)
    {
      if value {
        gatewayPort := 0;
      }
      disableGateway := value;
    }

    method SetSiloPort(port: Int32)
      modifies this
      ensures View() == old(View()).WithSiloPort(port)
    {
      siloPort := port;
    }

    method SetGatewayPort(port: Int32)
      modifies this
      ensures View() == old(View()).WithGatewayPort(port)
      ensures disableGateway == old(disableGateway)
    {
      gatewayPort := port;
    }
  }

  /** The object follows its value model through a sequence of setter calls,
      and ends disabled with a non-zero gateway port. */
  method GatewayCouplingOnObject() returns (o: SiloNetworkIpPortOption)
    ensures o.disableGateway && o.gatewayPort == 30000
  {
    o := new SiloNetworkIpPortOption();
    o.SetGatewayPort(11111);
    o.SetDisableGateway(true);
    assert o.gatewayPort == 0;
    o.SetGatewayPort(30000);
  }
}
