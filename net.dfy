/** Network addresses and peers, as message_io names them. */
module Net {
  import opened Bytes

  datatype SocketAddr = SocketAddr(ip: seq<byte>, port: u16)

  /** A connected peer: the transport resource it belongs to and its address. */
  datatype Endpoint = Endpoint(resourceId: nat, addr: SocketAddr)
}
