/** `System.Net.IPAddress`, reduced to what the core looks at: the address
    family and the address bytes. Parsing is not modelled: callers pass in
    `IPAddress.TryParse` as a function. */
module Net {
  import opened Wrappers

  /** `System.Net.Sockets.AddressFamily`; `InterNetwork` is IPv4. */
  datatype AddressFamily = InterNetwork | InterNetworkV6 | OtherFamily

  type Byte = b: int | 0 <= b < 256

  datatype IpAddress = IpAddress(family: AddressFamily, bytes: seq<Byte>)

  /** `IPAddress.Any`, 0.0.0.0 */
  const Any: IpAddress := IpAddress(InterNetwork, [0, 0, 0, 0])

  /** `IPAddress.Loopback`, 127.0.0.1 */
  const Loopback: IpAddress := IpAddress(InterNetwork, [127, 0, 0, 1])

  /** `IPAddress.TryParse`: `None` when the text is not an address.
      `IPAddress.Parse` is the same function throwing on `None`. */
  type IpParser = string -> Option<IpAddress>
}
