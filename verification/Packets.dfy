/** Whole packets (src/ip.rs, `build_packet` and `parse` in src/tcp.rs, `parse_any` in src/socket.rs):
    building and parsing are inverse, and both checksums of a built packet verify. */
module Packets {
  import opened Types
  import opened Segments
  import opened InternetChecksum
  import opened Wire

  datatype Endpoint = Endpoint(ip: Addr, port: u16)

  datatype Quad = Quad(remote: Endpoint, local: Endpoint)

  // ---- the bytes of a packet ----

  /** An IPv4 header without options, with the given checksum field. */
  function IpBytes(total: nat, src: Addr, dst: Addr, csum: u16): (r: seq<byte>)
    ensures |r| == 20
  {
    [0x45, 0] + Be16(total % 0x1_0000) + [0, 0, 0x40, 0, 64, 6] + Be16(csum) + src + dst
  }

  datatype Fields = Fields(srcPort: u16, dstPort: u16, seqno: u32, ackno: u32, flags: byte, window: u16)

  /** The byte that holds the data offset, as the source computes it in 8 bits. */
  function OffsetByte(optLen: nat): byte {
    (20 + optLen) / 4 % 0x100 * 16 % 0x100
  }

  /** The 20 fixed bytes of a TCP header, with the given checksum field. */
  function FixedBytes(f: Fields, csum: u16, optLen: nat): (r: seq<byte>)
    ensures |r| == 20
  {
    Be16(f.srcPort) + Be16(f.dstPort) + Be32(f.seqno) + Be32(f.ackno) + [OffsetByte(optLen), f.flags] +
    Be16(f.window) + Be16(csum) + [0, 0]
  }

  function TcpBytes(f: Fields, csum: u16, options: seq<byte>, payload: seq<byte>): seq<byte> {
    FixedBytes(f, csum, |options|) + options + payload
  }

  function PseudoHeader(src: Addr, dst: Addr, tcpLen: nat): (r: seq<byte>)
    ensures |r| == 12
  {
    src + dst + [0, 6] + Be16(tcpLen % 0x1_0000)
  }

  function TcpChecksum(src: Addr, dst: Addr, segment: seq<byte>): u16 {
    Checksum(PseudoHeader(src, dst, |segment|) + segment)
  }

  function SegmentBytes(src: Addr, dst: Addr, f: Fields, options: seq<byte>, payload: seq<byte>): seq<byte> {
    TcpBytes(f, TcpChecksum(src, dst, TcpBytes(f, 0, options, payload)), options, payload)
  }

  function HeaderBytes(total: nat, src: Addr, dst: Addr): seq<byte> {
    IpBytes(total, src, dst, Checksum(IpBytes(total, src, dst, 0)))
  }

  function PacketBytes(src: Addr, dst: Addr, f: Fields, options: seq<byte>, payload: seq<byte>): seq<byte> {
    HeaderBytes(40 + |options| + |payload|, src, dst) + SegmentBytes(src, dst, f, options, payload)
  }

  // ---- building in place ----

  function Zeros(n: nat): (r: seq<byte>)
    ensures |r| == n && forall i :: 0 <= i < n ==> r[i] == 0
  {
    seq(n, _ => 0)
  }

  /** Copy bytes to where the written part of the buffer ends. */
  method Fill(pkt: array<byte>, ghost done: seq<byte>, at: nat, bytes: seq<byte>)
    requires at == |done| && at + |bytes| <= pkt.Length && pkt[..] == done + Zeros(pkt.Length - at)
    modifies pkt
    ensures pkt[..] == (done + bytes) + Zeros(pkt.Length - at - |bytes|)
  {
    ghost var was := pkt[..];
    var i := 0;
    while i < |bytes|
      invariant 0 <= i <= |bytes|
      invariant forall k :: 0 <= k < pkt.Length ==> pkt[k] == if at <= k < at + i then bytes[k - at] else was[k]
    {
      pkt[at + i] := bytes[i];
      i := i + 1;
    }
  }

  /** Zero the field, sum the header, store the result: bytes 10 and 11. */
  method WriteHeaderChecksum(pkt: array<byte>)
    requires pkt.Length >= 20
    modifies pkt
    ensures var c := Checksum(old(pkt[..20])[10 := 0][11 := 0]);
            pkt[..] == old(pkt[..])[10 := c / 256][11 := c % 256]
  {
    ghost var was := pkt[..];
    pkt[10], pkt[11] := 0, 0;
    assert pkt[..20] == was[..20][10 := 0][11 := 0];
    var c := ComputeChecksum(pkt[..20]);
    pkt[10], pkt[11] := c / 256, c % 256;
  }

  method ComputeTcpChecksum(src: Addr, dst: Addr, segment: seq<byte>) returns (c: u16)
    requires |segment| <= 0x1_0000
    ensures c == TcpChecksum(src, dst, segment)
  {
    var buf := src + dst + [0] + [6] + Be16(|segment| % 0x1_0000) + segment;
    assert buf == PseudoHeader(src, dst, |segment|) + segment;
    c := ComputeChecksum(buf);
  }

  method FillIpHeader(pkt: array<byte>, total: nat, src: Addr, dst: Addr)
    requires pkt.Length >= 20 && pkt[..] == Zeros(pkt.Length)
    modifies pkt
    ensures pkt[..] == HeaderBytes(total, src, dst) + Zeros(pkt.Length - 20)
  {
    var n := pkt.Length;
    assert [] + Zeros(n) == Zeros(n);
    Fill(pkt, [], 0, [0x45, 0] + Be16(total % 0x1_0000) + [0, 0, 0x40, 0, 64, 6, 0, 0]);
    ghost var done := [] + ([0x45, 0] + Be16(total % 0x1_0000) + [0, 0, 0x40, 0, 64, 6, 0, 0]);
    Fill(pkt, done, 12, src + dst);
    ghost var plain := IpBytes(total, src, dst, 0);
    assert done + (src + dst) == plain;
    assert pkt[..20] == plain && plain[10 := 0][11 := 0] == plain;
    WriteHeaderChecksum(pkt);
    Stored(total, src, dst, Checksum(plain));
    assert (plain + Zeros(n - 20))[10 := Checksum(plain) / 256][11 := Checksum(plain) % 256] ==
           plain[10 := Checksum(plain) / 256][11 := Checksum(plain) % 256] + Zeros(n - 20);
  }

  lemma Stored(total: nat, src: Addr, dst: Addr, c: u16)
    ensures IpBytes(total, src, dst, 0)[10 := c / 256][11 := c % 256] == IpBytes(total, src, dst, c)
  {
  }

  lemma TcpStored(f: Fields, options: seq<byte>, payload: seq<byte>, c: u16)
    ensures TcpBytes(f, 0, options, payload)[16 := c / 256][17 := c % 256] == TcpBytes(f, c, options, payload)
  {
    Word32Of(f.seqno);
    Word32Of(f.ackno);
    hide Be32;
  }

  /** Ports, numbers, offset, flags and window; the checksum and urgent fields stay zero. */
  method FillFixed(pkt: array<byte>, ghost done: seq<byte>, f: Fields, optLen: nat)
    requires |done| == 20 && pkt.Length >= 40 && pkt[..] == done + Zeros(pkt.Length - 20)
    modifies pkt
    ensures pkt[..] == (done + FixedBytes(f, 0, optLen)) + Zeros(pkt.Length - 40)
  {
    var ports := Be16(f.srcPort) + Be16(f.dstPort);
    var numbers := Be32(f.seqno) + Be32(f.ackno);
    var rest := [OffsetByte(optLen), f.flags] + Be16(f.window) + [0, 0] + [0, 0];
    Lengths(f, optLen);
    hide Be16, Be32, FixedBytes;
    Fill(pkt, done, 20, ports);
    Fill(pkt, done + ports, 24, numbers);
    Fill(pkt, done + ports + numbers, 32, rest);
    assert done + ports + numbers + rest == done + (ports + numbers + rest);
  }

  lemma Lengths(f: Fields, optLen: nat)
    ensures |Be16(f.srcPort)| == 2 && |Be16(f.dstPort)| == 2 && |Be16(f.window)| == 2
    ensures |Be32(f.seqno)| == 4 && |Be32(f.ackno)| == 4
    ensures FixedBytes(f, 0, optLen) ==
            (Be16(f.srcPort) + Be16(f.dstPort)) + (Be32(f.seqno) + Be32(f.ackno)) +
            ([OffsetByte(optLen), f.flags] + Be16(f.window) + [0, 0] + [0, 0])
  {
    assert Be16(0) == [0, 0];
  }

  method FillTcpSegment(pkt: array<byte>, ghost done: seq<byte>, f: Fields, options: seq<byte>, payload: seq<byte>)
    requires |done| == 20 && pkt.Length == 40 + |options| + |payload|
    requires pkt[..] == done + Zeros(pkt.Length - 20)
    modifies pkt
    ensures pkt[..] == done + TcpBytes(f, 0, options, payload)
  {
    hide FixedBytes;
    ghost var fixedPart := FixedBytes(f, 0, |options|);
    FillFixed(pkt, done, f, |options|);
    Fill(pkt, done + fixedPart, 40, options);
    Fill(pkt, done + fixedPart + options, 40 + |options|, payload);
    assert pkt[..] == done + fixedPart + options + payload;
    assert done + fixedPart + options + payload == done + (fixedPart + options + payload);
  }

  /** A complete packet, built in one zeroed buffer. */
  method BuildPacket(src: Endpoint, dst: Endpoint, seqno: u32, ackno: u32, flags: byte, window: u16, options: seq<byte>,
                     payload: seq<byte>) returns (pkt: array<byte>)
    requires |options| % 4 == 0 && 20 + |options| + |payload| <= 0x1_0000
    ensures fresh(pkt)
    ensures pkt[..] == PacketBytes(src.ip, dst.ip, Fields(src.port, dst.port, seqno, ackno, flags, window), options, payload)
  {
    hide IpBytes, TcpBytes;
    var total := 40 + |options| + |payload|;
    pkt := new byte[total](_ => 0);
    assert pkt[..] == Zeros(total);
    var f := Fields(src.port, dst.port, seqno, ackno, flags, window);
    FillIpHeader(pkt, total, src.ip, dst.ip);
    ghost var header := HeaderBytes(total, src.ip, dst.ip);
    FillTcpSegment(pkt, header, f, options, payload);
    ghost var plain := TcpBytes(f, 0, options, payload);
    assert pkt[20..] == plain;
    var csum := ComputeTcpChecksum(src.ip, dst.ip, pkt[20..]);
    TcpStored(f, options, payload, csum);
    pkt[36], pkt[37] := csum / 256, csum % 256;
    assert pkt[..] == header + plain[16 := csum / 256][17 := csum % 256];
  }

  // ---- parsing ----

  datatype ParseError =
    | TooShort(have: nat, need: nat)
    | NotIpv4(version: nat)
    | HeaderLongerThanPacket(headerLen: nat, have: nat)
    | BadTotalLength(totalLen: nat, headerLen: nat)

  datatype Ipv4Header =
    Ipv4Header(version: nat, headerLen: nat, totalLen: nat, ttl: byte, protocol: byte, src: Addr, dst: Addr)

  datatype Parsed = Header(header: Ipv4Header) | Bad(error: ParseError)

  function ParseIp(packet: seq<byte>): Parsed {
    if |packet| < 20 then Bad(TooShort(|packet|, 20))
    else if packet[0] / 16 != 4 then Bad(NotIpv4(packet[0] / 16))
    else
      var headerLen: nat := (packet[0] % 16) as int * 4;
      var totalLen: nat := Word(packet[2], packet[3]);
      if |packet| < headerLen then Bad(HeaderLongerThanPacket(headerLen, |packet|))
      else if totalLen < headerLen then Bad(BadTotalLength(totalLen, headerLen))
      else Header(Ipv4Header(4, headerLen, totalLen, packet[8], packet[9], packet[12..16], packet[16..20]))
  }

  predicate VerifyChecksum(header: seq<byte>) {
    Checksum(header) == 0
  }

  datatype TcpHeader = TcpHeader(fields: Fields, dataOffset: nat)

  function ParseTcp(seg: seq<byte>): Option<TcpHeader> {
    if |seg| < 20 then None else
      var dataOffset: nat := (seg[12] / 16) as int * 4;
      if dataOffset < 20 || dataOffset > |seg| then None
      else Some(TcpHeader(
        Fields(Word(seg[0], seg[1]), Word(seg[2], seg[3]), Word32(seg[4], seg[5], seg[6], seg[7]),
               Word32(seg[8], seg[9], seg[10], seg[11]), seg[13], Word(seg[14], seg[15])), dataOffset))
  }

  /** The 4-tuple and the segment of any IPv4/TCP packet. */
  function ParseAny(packet: seq<byte>): Option<(Quad, Seg)> {
    var ip := ParseIp(packet);
    if ip.Bad? || ip.header.protocol != 6 then None else
      var l4 := packet[ip.header.headerLen..];
      var th := ParseTcp(l4);
      if th.None? then None else
        var f := th.value.fields;
        var off := Min(th.value.dataOffset, |l4|);
        Some((Quad(Endpoint(ip.header.src, f.srcPort), Endpoint(ip.header.dst, f.dstPort)),
              Seg(f.seqno, f.ackno, f.flags, f.window, ParseOptions(l4[20..off]), l4[off..])))
  }

  // ---- round trips ----

  lemma HeaderParses(total: nat, src: Addr, dst: Addr, rest: seq<byte>)
    requires total == 20 + |rest| <= 0xFFFF
    ensures ParseIp(HeaderBytes(total, src, dst) + rest) == Header(Ipv4Header(4, 20, total, 64, 6, src, dst))
  {
    var h := HeaderBytes(total, src, dst);
    var packet := h + rest;
    HeaderFields(total, src, dst, Checksum(IpBytes(total, src, dst, 0)));
    HeaderLength(total, src, dst);
    hide Word, Checksum, IpBytes;
    assert packet[12..16] == h[12..16] && packet[16..20] == h[16..20];
  }

  lemma HeaderFields(total: u16, src: Addr, dst: Addr, csum: u16)
    ensures var h := IpBytes(total, src, dst, csum);
            && h[0] == 0x45 && Word(h[2], h[3]) == total && h[8] == 64 && h[9] == 6
            && h[12..16] == src && h[16..20] == dst
  {
    WordOf(total);
    hide Word;
  }

  lemma SegmentParses(f: Fields, csum: u16, options: seq<byte>, payload: seq<byte>)
    requires |options| % 4 == 0 && |options| <= 40
    ensures ParseTcp(TcpBytes(f, csum, options, payload)) == Some(TcpHeader(f, 20 + |options|))
    ensures TcpBytes(f, csum, options, payload)[20..20 + |options|] == options
    ensures TcpBytes(f, csum, options, payload)[20 + |options|..] == payload
  {
    FieldBytes(f, csum, |options|);
    hide FixedBytes, Word, Word32;
    var seg := TcpBytes(f, csum, options, payload);
    assert forall i :: 0 <= i < 20 ==> seg[i] == FixedBytes(f, csum, |options|)[i];
    OffsetNibble(|options|);
  }

  lemma FieldBytes(f: Fields, csum: u16, optLen: nat)
    ensures var b := FixedBytes(f, csum, optLen);
            && Word(b[0], b[1]) == f.srcPort && Word(b[2], b[3]) == f.dstPort
            && Word32(b[4], b[5], b[6], b[7]) == f.seqno && Word32(b[8], b[9], b[10], b[11]) == f.ackno
            && b[12] == OffsetByte(optLen) && b[13] == f.flags && Word(b[14], b[15]) == f.window
  {
    WordOf(f.srcPort);
    WordOf(f.dstPort);
    WordOf(f.window);
    Word32Of(f.seqno);
    Word32Of(f.ackno);
    hide Be32, Word32, Word;
  }

  lemma OffsetNibble(optLen: nat)
    requires optLen % 4 == 0 && optLen <= 40
    ensures (OffsetByte(optLen) / 16) as int * 4 == 20 + optLen
  {
  }

  /** Parsing what was built returns the same addresses, fields, options and payload. */
  lemma PacketParses(src: Endpoint, dst: Endpoint, f: Fields, options: seq<byte>, payload: seq<byte>)
    requires f.srcPort == src.port && f.dstPort == dst.port
    requires |options| % 4 == 0 && |options| <= 40 && 40 + |options| + |payload| <= 0xFFFF
    ensures var packet := PacketBytes(src.ip, dst.ip, f, options, payload);
            && ParseIp(packet) == Header(Ipv4Header(4, 20, |packet|, 64, 6, src.ip, dst.ip))
            && ParseAny(packet) ==
               Some((Quad(src, dst), Seg(f.seqno, f.ackno, f.flags, f.window, ParseOptions(options), payload)))
  {
    var seg := SegmentBytes(src.ip, dst.ip, f, options, payload);
    var total := 40 + |options| + |payload|;
    var packet := PacketBytes(src.ip, dst.ip, f, options, payload);
    SegmentParses(f, TcpChecksum(src.ip, dst.ip, TcpBytes(f, 0, options, payload)), options, payload);
    HeaderParses(total, src.ip, dst.ip, seg);
    hide ParseIp, ParseTcp, TcpBytes, TcpChecksum, IpBytes, ParseOptions, Checksum;
    assert packet[20..] == seg;
  }

  /** Both checksums of a built packet verify: the header sums to zero, and so does the segment under its
      pseudo-header (section 3.1 of RFC 9293). */
  lemma PacketVerifies(src: Addr, dst: Addr, f: Fields, options: seq<byte>, payload: seq<byte>)
    ensures var packet := PacketBytes(src, dst, f, options, payload);
            VerifyChecksum(packet[..20]) && TcpChecksum(src, dst, packet[20..]) == 0
  {
    var packet := PacketBytes(src, dst, f, options, payload);
    HeaderVerifies(40 + |options| + |payload|, src, dst);
    SegmentVerifies(src, dst, f, options, payload);
    hide HeaderBytes, SegmentBytes, TcpChecksum, Checksum;
    assert packet[..20] == HeaderBytes(40 + |options| + |payload|, src, dst) by {
      HeaderLength(40 + |options| + |payload|, src, dst);
    }
    assert packet[20..] == SegmentBytes(src, dst, f, options, payload) by {
      HeaderLength(40 + |options| + |payload|, src, dst);
    }
  }

  lemma HeaderLength(total: nat, src: Addr, dst: Addr)
    ensures |HeaderBytes(total, src, dst)| == 20
  {
  }

  lemma HeaderVerifies(total: nat, src: Addr, dst: Addr)
    ensures VerifyChecksum(HeaderBytes(total, src, dst))
  {
    var plain := IpBytes(total, src, dst, 0);
    Stored(total, src, dst, Checksum(plain));
    StoredVerifies(plain, 10);
    hide Checksum;
  }

  lemma SegmentVerifies(src: Addr, dst: Addr, f: Fields, options: seq<byte>, payload: seq<byte>)
    ensures TcpChecksum(src, dst, SegmentBytes(src, dst, f, options, payload)) == 0
  {
    var plain := TcpBytes(f, 0, options, payload);
    var c := TcpChecksum(src, dst, plain);
    var pseudo := PseudoHeader(src, dst, |plain|);
    var data := pseudo + plain;
    FieldZero(f, options, payload);
    TcpStored(f, options, payload, c);
    StoredVerifies(data, 28);
    hide Checksum, TcpBytes, PseudoHeader;
    assert data[28 := c / 256][29 := c % 256] == pseudo + plain[16 := c / 256][17 := c % 256];
  }

  lemma FieldZero(f: Fields, options: seq<byte>, payload: seq<byte>)
    ensures var plain := TcpBytes(f, 0, options, payload);
            |plain| == 20 + |options| + |payload| && plain[16] == 0 && plain[17] == 0
  {
    Lengths(f, |options|);
    hide Be16, Be32, FixedBytes;
  }

  // ---- segments of a connection ----

  function MssPart(o: Options): seq<Blob> {
    if o.mss.Some? then [MssBlob(o.mss.value)] else []
  }

  function WsPart(o: Options): seq<Blob> {
    if o.wscale.Some? then [WsBlob(o.wscale.value)] else []
  }

  function TsPart(o: Options): seq<Blob> {
    if o.ts.Some? then [TsBlob(o.ts.value.val, o.ts.value.ecr)] else []
  }

  function PermPart(o: Options): seq<Blob> {
    if o.sackPermitted then [PermBlob] else []
  }

  function SackPart(o: Options): seq<Blob> {
    if o.sack != [] then [SackBlob(o.sack)] else []
  }

  /** The blobs for a set of options, in the order the connection emits them. */
  function Blobs(o: Options): seq<Blob> {
    MssPart(o) + WsPart(o) + TsPart(o) + PermPart(o) + SackPart(o)
  }

  function OptionBytes(o: Options): seq<byte> {
    EncodeAll(Blobs(o))
  }

  function OnTheWire(from: Endpoint, to: Endpoint, p: Seg): seq<byte> {
    PacketBytes(from.ip, to.ip, Fields(from.port, to.port, p.seqno, p.ackno, p.flags, p.window), OptionBytes(p.opts), p.payload)
  }

  lemma {:induction false} EncodeAligned(bs: seq<Blob>)
    ensures |EncodeAll(bs)| % 4 == 0
  {
    if bs != [] {
      BlobAligned(bs[0]);
      hide Encode;
      EncodeAligned(bs[1..]);
    }
  }

  lemma BlobAligned(b: Blob)
    ensures |Encode(b)| % 4 == 0
  {
    match b {
      case MssBlob(mss) =>
      case WsBlob(shift) =>
      case TsBlob(val, ecr) =>
        Word32Of(val);
        Word32Of(ecr);
      case PermBlob =>
      case SackBlob(blocks) =>
        var n := Min(|blocks|, MAX_SACK_BLOCKS);
        PairsBlocks(blocks[..n], Pairs(blocks[..n]));
    }
  }

  lemma {:induction false} EffectAppend(a: seq<Blob>, b: seq<Blob>, acc: Options)
    ensures EffectAll(a + b, acc) == EffectAll(b, EffectAll(a, acc))
  {
    hide Effect;
    if a == [] {
      assert a + b == b;
    } else {
      assert (a + b)[1..] == a[1..] + b && (a + b)[0] == a[0];
      EffectAppend(a[1..], b, Effect(a[0], acc));
    }
  }

  lemma OneBlob(b: Blob, acc: Options)
    ensures EffectAll([b], acc) == Effect(b, acc) && EncodeAll([b]) == Encode(b)
  {
    hide Encode;
    assert [b][1..] == [];
  }

  lemma MssSays(o: Options, acc: Options)
    ensures EffectAll(MssPart(o), acc) == if o.mss.Some? then acc.(mss := o.mss) else acc
    ensures |EncodeAll(MssPart(o))| == if o.mss.Some? then 4 else 0
  {
    if o.mss.Some? {
      OneBlob(MssBlob(o.mss.value), acc);
      hide EncodeAll, EffectAll;
    }
  }

  lemma WsSays(o: Options, acc: Options)
    ensures EffectAll(WsPart(o), acc) == if o.wscale.Some? then acc.(wscale := o.wscale) else acc
    ensures |EncodeAll(WsPart(o))| == if o.wscale.Some? then 4 else 0
  {
    if o.wscale.Some? {
      OneBlob(WsBlob(o.wscale.value), acc);
      hide EncodeAll, EffectAll;
    }
  }

  lemma TsSays(o: Options, acc: Options)
    ensures EffectAll(TsPart(o), acc) == if o.ts.Some? then acc.(ts := o.ts) else acc
    ensures |EncodeAll(TsPart(o))| == if o.ts.Some? then 12 else 0
  {
    if o.ts.Some? {
      OneBlob(TsBlob(o.ts.value.val, o.ts.value.ecr), acc);
      Word32Of(o.ts.value.val);
      Word32Of(o.ts.value.ecr);
      hide EncodeAll, EffectAll, Be32;
    }
  }

  lemma PermSays(o: Options, acc: Options)
    ensures EffectAll(PermPart(o), acc) == if o.sackPermitted then acc.(sackPermitted := true) else acc
    ensures |EncodeAll(PermPart(o))| == if o.sackPermitted then 4 else 0
  {
    if o.sackPermitted {
      OneBlob(PermBlob, acc);
      hide EncodeAll, EffectAll;
    }
  }

  lemma SackSays(o: Options, acc: Options)
    requires |o.sack| <= MAX_SACK_BLOCKS
    ensures EffectAll(SackPart(o), acc) == if o.sack != [] then acc.(sack := o.sack) else acc
    ensures |EncodeAll(SackPart(o))| == if o.sack != [] then 4 + 8 * |o.sack| else 0
  {
    if o.sack != [] {
      OneBlob(SackBlob(o.sack), acc);
      PairsBlocks(o.sack, Pairs(o.sack));
      hide EncodeAll, EffectAll, Pairs, Blocks;
      assert o.sack[..|o.sack|] == o.sack;
    }
  }

  lemma OptionsSurvive(o: Options)
    requires |o.sack| <= MAX_SACK_BLOCKS
    ensures ParseOptions(OptionBytes(o)) == o
  {
    BlobsParse(Blobs(o), NO_OPTIONS);
    hide ParseFrom, EncodeAll, EffectAll, MssPart, WsPart, TsPart, PermPart, SackPart;
    EffectAppend(MssPart(o) + WsPart(o) + TsPart(o) + PermPart(o), SackPart(o), NO_OPTIONS);
    EffectAppend(MssPart(o) + WsPart(o) + TsPart(o), PermPart(o), NO_OPTIONS);
    EffectAppend(MssPart(o) + WsPart(o), TsPart(o), NO_OPTIONS);
    EffectAppend(MssPart(o), WsPart(o), NO_OPTIONS);
    var a := EffectAll(MssPart(o), NO_OPTIONS);
    MssSays(o, NO_OPTIONS);
    var b := EffectAll(WsPart(o), a);
    WsSays(o, a);
    var c := EffectAll(TsPart(o), b);
    TsSays(o, b);
    var d := EffectAll(PermPart(o), c);
    PermSays(o, c);
    SackSays(o, d);
  }

  /** Every segment a connection can emit travels as bytes and arrives as itself: its options fit the
      header, and parsing returns the same segment under the mirrored 4-tuple. */
  lemma SegmentSurvives(from: Endpoint, to: Endpoint, p: Seg)
    requires |p.opts.sack| <= MAX_SACK_BLOCKS && |OptionBytes(p.opts)| <= 40
    requires 40 + |OptionBytes(p.opts)| + |p.payload| <= 0xFFFF
    ensures ParseAny(OnTheWire(from, to, p)) == Some((Quad(from, to), p))
  {
    OptionsSurvive(p.opts);
    EncodeAligned(Blobs(p.opts));
    hide ParseAny, PacketBytes, ParseOptions, EncodeAll, Blobs;
    PacketParses(from, to, Fields(from.port, to.port, p.seqno, p.ackno, p.flags, p.window), OptionBytes(p.opts), p.payload);
  }

  lemma {:induction false} EncodeAppend(a: seq<Blob>, b: seq<Blob>)
    ensures EncodeAll(a + b) == EncodeAll(a) + EncodeAll(b)
  {
    hide Encode;
    if a == [] {
      assert a + b == b;
    } else {
      assert (a + b)[1..] == a[1..] + b && (a + b)[0] == a[0];
      EncodeAppend(a[1..], b);
    }
  }

  /** Neither a SYN's options nor an ACK's exceed the 40 bytes a header has for them. */
  lemma OptionsFit(o: Options)
    requires |o.sack| <= MAX_SACK_BLOCKS
    requires o.sack == [] || (o.mss.None? && o.wscale.None? && !o.sackPermitted)
    ensures |OptionBytes(o)| <= 40
  {
    hide EncodeAll, EffectAll, MssPart, WsPart, TsPart, PermPart, SackPart;
    EncodeAppend(MssPart(o) + WsPart(o) + TsPart(o) + PermPart(o), SackPart(o));
    EncodeAppend(MssPart(o) + WsPart(o) + TsPart(o), PermPart(o));
    EncodeAppend(MssPart(o) + WsPart(o), TsPart(o));
    EncodeAppend(MssPart(o), WsPart(o));
    MssSays(o, NO_OPTIONS);
    WsSays(o, NO_OPTIONS);
    TsSays(o, NO_OPTIONS);
    PermSays(o, NO_OPTIONS);
    SackSays(o, NO_OPTIONS);
  }
}
