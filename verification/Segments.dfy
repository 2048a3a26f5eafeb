/** The parts of a TCP segment the state machine reads and writes (src/tcp.rs). `Packets` and `Emission` show that
    these fields survive the byte encoding. */
module Segments {
  import opened Types

  const FIN: byte := 0x01
  const SYN: byte := 0x02
  const RST: byte := 0x04
  const PSH: byte := 0x08
  const ACK: byte := 0x10

  const MAX_WSCALE := 14
  const MAX_SACK_BLOCKS := 3

  type Shift = x: int | 0 <= x <= MAX_WSCALE

  datatype Block = Block(left: u32, right: u32)
  datatype Stamp = Stamp(val: u32, ecr: u32)

  datatype Options = Options(
    mss: Option<u16>,
    ts: Option<Stamp>,
    wscale: Option<Shift>,
    sackPermitted: bool,
    sack: seq<Block>)

  const NO_OPTIONS := Options(None, None, None, false, [])

  datatype Seg = Seg(seqno: u32, ackno: u32, flags: byte, window: u16, opts: Options, payload: seq<byte>)

  /** `flags & bit != 0` for a single-bit mask. */
  predicate Has(flags: byte, bit: byte)
    requires bit != 0
  {
    (flags / bit) % 2 == 1
  }
}
