/** `NewServer`: the protocol name picks the server implementation. */
module Servers {
  import opened Wrappers
  import opened Text
  import opened Serving
  import TcpListener
  import UdpListener

  datatype Protocol = Tcp | Udp

  const InvalidProtocol := "Invalid protocol given"

  /**
   * The `switch strings.ToLower(protocol)` of `NewServer`: any letter-case spelling
   * of "tcp" or "udp" is accepted, every other name is refused.
   */
  function ParseProtocol(protocol: string): (r: Result<Protocol, string>)
    ensures r == Success(Tcp) <==> IsCaseVariant(protocol, "tcp")
    ensures r == Success(Udp) <==> IsCaseVariant(protocol, "udp")
    ensures r.Failure? <==> !IsCaseVariant(protocol, "tcp") && !IsCaseVariant(protocol, "udp")
    ensures r.Failure? ==> r.error == InvalidProtocol
  {
    ToLowerMatchesCaseVariants(protocol, "tcp");
    ToLowerMatchesCaseVariants(protocol, "udp");
    match ToLower(protocol)
    case "tcp" => Success(Tcp)
    case "udp" => Success(Udp)
    case _ => Failure(InvalidProtocol)
  }

  /** A value of Go's `Server` interface. */
  datatype Server = TcpServer(tcp: TcpListener.TCPServer) | UdpServer(udp: UdpListener.UDPServer)

  /** `NewServer`: a fresh server of the named protocol holding `addr` unchanged, or the error. */
  method NewServer(protocol: string, addr: string) returns (r: Result<Server, string>)
    ensures r.Failure? <==> ParseProtocol(protocol).Failure?
    ensures r.Failure? ==> r.error == InvalidProtocol
    ensures r.Success? && r.value.TcpServer? <==> ParseProtocol(protocol) == Success(Tcp)
    ensures r.Success? && r.value.TcpServer? ==>
      fresh(r.value.tcp) && r.value.tcp.addr == addr && r.value.tcp.server == Unset
    ensures r.Success? && r.value.UdpServer? ==>
      fresh(r.value.udp) && r.value.udp.addr == addr && r.value.udp.server == Unset
  {
    match ParseProtocol(protocol)
    case Success(Tcp) =>
      var t := new TcpListener.TCPServer(addr);
      r := Success(TcpServer(t));
    case Success(Udp) =>
      var u := new UdpListener.UDPServer(addr);
      r := Success(UdpServer(u));
    case Failure(e) =>
      r := Failure(e);
  }
}
