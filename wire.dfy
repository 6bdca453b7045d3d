/** The values that cross the network boundary of `tcp.py`: bytes, the flag
    bits of the TCP header (section 3.1 of RFC 793), connection identities,
    parsed inbound headers and the outbound segments handed to the network. */
module Wire {

  newtype Byte = b: int | 0 <= b < 256
  type Bytes = seq<Byte>
  type Addr = string

  /** Flag bits in the low byte of the data-offset/flags word. */
  const FLAGS_FIN: bv16 := 0x01
  const FLAGS_SYN: bv16 := 0x02
  const FLAGS_ACK: bv16 := 0x10

  /** Maximum payload of one outbound segment, in bytes. */
  const MSS: nat := 1460

  /** `(flags & f) == f` */
  predicate HasFlag(flags: bv16, f: bv16) {
    flags & f == f
  }

  /** Header length in bytes: the data-offset nibble counts 32-bit words. */
  function HeaderLength(flags: bv16): (n: nat)
    ensures n % 4 == 0 && n <= 60
  {
    4 * ((flags >> 12) as int)
  }

  /** `(src_addr, src_port, dst_addr, dst_port)` of an inbound segment:
      src is the peer, dst is this server. */
  datatype ConnId = ConnId(srcAddr: Addr, srcPort: nat, dstAddr: Addr, dstPort: nat)

  /** The fields `read_header` returns. */
  datatype Header = Header(srcPort: nat, dstPort: nat, seqNo: nat, ackNo: nat,
                           flags: bv16, windowSize: nat, checksum: nat, urgPtr: nat)

  /** An outbound segment as handed to the network: destination address,
      the header fields given to `make_header`, and the payload. */
  datatype Segment = Segment(to: Addr, srcPort: nat, dstPort: nat, seqNo: int, ackNo: int,
                             flags: bv16, payload: Bytes)

  /** A segment of connection `id` sent back to its peer: from the server's
      port to the peer's port, addressed to the peer. */
  function Reply(id: ConnId, seqNo: int, ackNo: int, flags: bv16, payload: Bytes): Segment {
    Segment(id.srcAddr, id.dstPort, id.srcPort, seqNo, ackNo, flags, payload)
  }
}
