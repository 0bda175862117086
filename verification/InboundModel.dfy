// The vocabulary every inbound is written in, and the sockets a core opens for it.
module InboundModel {
  datatype Protocol =
    | VLESS | VMess | Trojan | Shadowsocks | SOCKS | HTTP | Hysteria2 | TUIC | AnyTLS | WireGuard | AmneziaWG
    | ShadowTLS | SSH | Brook | ForgeDNS | Unknown

  datatype Network = Raw | WS | GRPC | HTTPUpgrade | XHTTP | H2 | MKCP | QUIC

  // OtherMode is a plain brook server, which is also what no mode means.
  datatype BrookMode = QuicServer | WsServer | WssServer | OtherMode

  datatype L4 = TCP | UDP

  const MAX_PORT: int := 65535

  predicate UsesTransport(p: Protocol) {
    p == VLESS || p == VMess || p == Trojan || p == Shadowsocks || p == SOCKS || p == HTTP
  }

  // A transport the core no longer has: the inbound is not valid and not rendered.
  predicate Removed(p: Protocol, n: Network) { UsesTransport(p) && (n == H2 || n == MKCP || n == QUIC) }

  // XHTTP whose TLS offers HTTP/3 and nothing else (`h3`) is served over QUIC.
  predicate OverQuic(p: Protocol, n: Network, h3: bool) { UsesTransport(p) && n == XHTTP && h3 }

  // The transports an inbound's core listens with on the inbound's own port.
  // AmneziaWG is a kernel UDP interface, as WireGuard is; nothing serves SSH.
  predicate Opens(p: Protocol, n: Network, h3: bool, mode: BrookMode, l4: L4) {
    !Removed(p, n) &&
    if OverQuic(p, n, h3) then l4 == UDP
    else
      match p
      case VLESS => l4 == TCP
      case VMess => l4 == TCP
      case Trojan => l4 == TCP
      case HTTP => l4 == TCP
      case Shadowsocks => true
      case SOCKS => true
      case Hysteria2 => l4 == UDP
      case TUIC => l4 == UDP
      case WireGuard => l4 == UDP
      case AmneziaWG => l4 == UDP
      case AnyTLS => l4 == TCP
      case ShadowTLS => l4 == TCP
      case Brook => if mode == QuicServer then l4 == UDP else l4 == TCP || mode == OtherMode
      case _ => false
  }

  const INNER_OFFSET: int := 20000

  // Where a ShadowTLS inbound's own Shadowsocks listener is put, on loopback and
  // on both transports.
  function InnerPort(port: int): (p: int)
    ensures 1 <= port <= MAX_PORT ==> 1 <= p <= MAX_PORT && p != port
  {
    if port + INNER_OFFSET > MAX_PORT then port - INNER_OFFSET else port + INNER_OFFSET
  }
}
