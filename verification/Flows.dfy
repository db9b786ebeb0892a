/** Addresses and connections shared by the conntrack parser, the open-flow sets
    and the packet filter. */
module Flows {

  newtype byte = x: int | 0 <= x < 256

  newtype port = x: int | 0 <= x < 65536

  datatype Ipv4 = Ipv4(a: byte, b: byte, c: byte, d: byte)

  const PROTO_TCP: byte := 6
  const PROTO_UDP: byte := 17

  /** One connection: the 5-tuple of its original direction
      (members/nullnet-client/src/nfqueue/parse.rs:10-17). */
  datatype Flow = Flow(srcIp: Ipv4, srcPort: port, dstIp: Ipv4, dstPort: port, proto: byte)
}
