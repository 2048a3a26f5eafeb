/** Where everything is in a packet, byte by byte (section 3.1 of RFC 791, section 3.1 of RFC 9293, section 2 of RFC
    7323, section 3 of RFC 2018): what is built, and what any bytes are read as, malformed ones included. */
module Layout {
  import opened Types
  import opened Segments
  import opened InternetChecksum
  import opened Wire
  import opened Packets

  /** The big-endian number in bytes i and i + 1. */
  function Two(s: seq<byte>, i: nat): nat
    requires i + 2 <= |s|
  {
    s[i] as int * 256 + s[i + 1]
  }

  function Four(s: seq<byte>, i: nat): nat
    requires i + 4 <= |s|
  {
    65536 * Two(s, i) + Two(s, i + 2)
  }

  // ---- options, as built ----

  lemma BlobBytes(mss: u16, shift: byte, val: u32, ecr: u32, blocks: seq<Block>)
    ensures Encode(MssBlob(mss)) == [2, 4, mss / 256, mss % 256]
    ensures Encode(WsBlob(shift)) == [1, 3, 3, shift]
    ensures Encode(PermBlob) == [1, 1, 4, 2]
    ensures var b := Encode(TsBlob(val, ecr)); |b| == 12 && b[..4] == [1, 1, 8, 10] && Four(b, 4) == val && Four(b, 8) == ecr
    ensures var b, n := Encode(SackBlob(blocks)), Min(|blocks|, 3);
            if n == 0 then b == []
            else |b| == 4 + 8 * n && b[..4] == [1, 1, 5, 2 + 8 * n]
                 && forall k :: 0 <= k < n ==> Four(b, 4 + 8 * k) == blocks[k].left && Four(b, 8 + 8 * k) == blocks[k].right
  {
    StampBytes(val, ecr);
    hide Be32, Pairs;
    if blocks != [] {
      var some := blocks[..Min(|blocks|, 3)];
      PairBytes(some);
      var b := Encode(SackBlob(blocks));
      assert b == [1, 1, 5, 2 + 8 * |some|] + Pairs(some);
      forall k | 0 <= k < |some|
        ensures Four(b, 4 + 8 * k) == blocks[k].left && Four(b, 8 + 8 * k) == blocks[k].right
      {
        FourLater([1, 1, 5, 2 + 8 * |some|], Pairs(some), 8 * k);
        FourLater([1, 1, 5, 2 + 8 * |some|], Pairs(some), 8 * k + 4);
      }
    }
  }

  lemma FourOf(x: u32)
    ensures |Be32(x)| == 4 && Four(Be32(x), 0) == x
  {
  }

  lemma FourLater(a: seq<byte>, b: seq<byte>, i: nat)
    requires i + 4 <= |b|
    ensures Four(a + b, |a| + i) == Four(b, i)
  {
  }

  lemma FourEarlier(a: seq<byte>, b: seq<byte>, i: nat)
    requires i + 4 <= |a|
    ensures Four(a + b, i) == Four(a, i)
  {
  }

  lemma StampBytes(val: u32, ecr: u32)
    ensures var b := Encode(TsBlob(val, ecr)); |b| == 12 && b[..4] == [1, 1, 8, 10] && Four(b, 4) == val && Four(b, 8) == ecr
  {
    FourOf(val);
    FourOf(ecr);
    hide Be32, Four;
    var head: seq<byte> := [1, 1, 8, 10];
    FourLater(head, Be32(val) + Be32(ecr), 0);
    FourEarlier(Be32(val), Be32(ecr), 0);
    FourLater(head, Be32(val) + Be32(ecr), 4);
    FourLater(Be32(val), Be32(ecr), 0);
    assert Encode(TsBlob(val, ecr)) == head + (Be32(val) + Be32(ecr));
  }

  lemma {:induction false} PairBytes(blocks: seq<Block>)
    ensures |Pairs(blocks)| == 8 * |blocks|
    ensures forall k :: 0 <= k < |blocks| ==>
              Four(Pairs(blocks), 8 * k) == blocks[k].left && Four(Pairs(blocks), 8 * k + 4) == blocks[k].right
  {
    if blocks != [] {
      var n := |blocks| - 1;
      var front, l, r := Pairs(blocks[..n]), Be32(blocks[n].left), Be32(blocks[n].right);
      PairBytes(blocks[..n]);
      FourOf(blocks[n].left);
      FourOf(blocks[n].right);
      hide Be32, Four;
      assert Pairs(blocks) == front + (l + r);
      forall k | 0 <= k < |blocks|
        ensures Four(Pairs(blocks), 8 * k) == blocks[k].left && Four(Pairs(blocks), 8 * k + 4) == blocks[k].right
      {
        if k < n {
          FourEarlier(front, l + r, 8 * k);
          FourEarlier(front, l + r, 8 * k + 4);
        } else {
          FourLater(front, l + r, 0);
          FourLater(front, l + r, 4);
          FourEarlier(l, r, 0);
          FourLater(l, r, 0);
        }
      }
    }
  }

  // ---- options, as read ----

  /** What an option of this kind with this data does to what has been read so far: nothing, if the kind is unknown or
      the data has the wrong length. */
  ghost predicate ReadAs(kind: byte, data: seq<byte>, acc: Options, out: Options) {
    if kind == 2 && |data| == 2 then out == acc.(mss := Some(data[0] as int * 256 + data[1]))
    else if kind == 3 && |data| == 1 then out == acc.(wscale := Some(if data[0] > 14 then 14 else data[0]))
    else if kind == 4 && data == [] then out == acc.(sackPermitted := true)
    else if kind == 5 && data != [] && |data| % 8 == 0 then
      && out == acc.(sack := out.sack) && |out.sack| == Min(|data| / 8, 4)
      && forall k :: 0 <= k < |out.sack| ==> out.sack[k].left == Four(data, 8 * k) && out.sack[k].right == Four(data, 8 * k + 4)
    else if kind == 8 && |data| == 8 then
      out == acc.(ts := out.ts) && out.ts.Some? && out.ts.value.val == Four(data, 0) && out.ts.value.ecr == Four(data, 4)
    else out == acc
  }

  lemma WordIs(a: byte, b: byte)
    ensures Word(a, b) as int == a as int * 256 + b
  {
  }

  lemma FourRead(s: seq<byte>, i: nat)
    requires i + 4 <= |s|
    ensures Word32(s[i], s[i + 1], s[i + 2], s[i + 3]) == Four(s, i)
  {
    WordIs(s[i], s[i + 1]);
    WordIs(s[i + 2], s[i + 3]);
    hide Word;
  }

  lemma {:induction false} BlocksRead(data: seq<byte>, n: nat)
    requires n * 8 <= |data|
    ensures forall k :: 0 <= k < n ==>
              Blocks(data, n)[k].left == Four(data, 8 * k) && Blocks(data, n)[k].right == Four(data, 8 * k + 4)
  {
    hide Word32, Four;
    if n > 0 {
      BlocksRead(data, n - 1);
      FourRead(data, 8 * (n - 1));
      FourRead(data, 8 * (n - 1) + 4);
    }
  }

  lemma OptionRead(kind: byte, data: seq<byte>, acc: Options)
    ensures ReadAs(kind, data, acc, ReadOption(kind, data, acc))
  {
    hide Word32, Word, Four, Blocks;
    if kind == 2 && |data| == 2 {
      WordIs(data[0], data[1]);
    } else if kind == 8 && |data| == 8 {
      FourRead(data, 0);
      FourRead(data, 4);
    } else if kind == 5 && data != [] && |data| % 8 == 0 {
      BlocksRead(data, Min(|data| / 8, 4));
    }
  }

  /** Any option area, whatever it holds. Padding is skipped; an option whose length fits is read as `ReadAs` says and
      the rest follows; the end marker, a kind without a length, and a length that is too short or too long end the
      reading. */
  lemma OptionsExactly(opts: seq<byte>, acc: Options) returns (out: Options)
    ensures if opts == [] || opts[0] == 0 then ParseFrom(opts, acc) == acc
            else if opts[0] == 1 then ParseFrom(opts, acc) == ParseFrom(opts[1..], acc)
            else if |opts| == 1 || opts[1] < 2 || opts[1] > |opts| then ParseFrom(opts, acc) == acc
            else ReadAs(opts[0], opts[2..opts[1]], acc, out) && ParseFrom(opts, acc) == ParseFrom(opts[opts[1]..], out)
  {
    out := acc;
    if |opts| >= 2 && 2 <= opts[1] <= |opts| {
      out := ReadOption(opts[0], opts[2..opts[1]], acc);
      OptionRead(opts[0], opts[2..opts[1]], acc);
    }
    hide ReadOption, ReadAs;
  }

  // ---- headers ----

  /** A built packet, byte by byte. */
  lemma PacketLayout(src: Addr, dst: Addr, f: Fields, options: seq<byte>, payload: seq<byte>)
    requires |options| % 4 == 0 && |options| <= 40 && 40 + |options| + |payload| <= 0xFFFF
    ensures var p := PacketBytes(src, dst, f, options, payload);
            && |p| == 40 + |options| + |payload|
            && p[0] == 0x45 && Two(p, 2) == |p| && p[8] == 64 && p[9] == 6 && p[12..16] == src && p[16..20] == dst
            && Two(p, 20) == f.srcPort && Two(p, 22) == f.dstPort && Four(p, 24) == f.seqno && Four(p, 28) == f.ackno
            && p[32] / 16 * 4 == 20 + |options| && p[33] == f.flags && Two(p, 34) == f.window
            && p[40..40 + |options|] == options && p[40 + |options|..] == payload
  {
    var p := PacketBytes(src, dst, f, options, payload);
    var segment := SegmentBytes(src, dst, f, options, payload);
    var total := 40 + |options| + |payload|;
    var h := HeaderBytes(total, src, dst);
    HeaderLayout(total, src, dst);
    SegmentLayout(f, TcpChecksum(src, dst, TcpBytes(f, 0, options, payload)), options, payload);
    hide HeaderBytes, TcpBytes, TcpChecksum, OffsetByte, Two, Four;
    assert p == h + segment;
    TwoEarlier(h, segment, 2);
    TwoLater(h, segment, 0);
    TwoLater(h, segment, 2);
    TwoLater(h, segment, 14);
    FourLater(h, segment, 4);
    FourLater(h, segment, 8);
    assert p[32] == segment[12] && p[33] == segment[13];
    assert p[12..16] == h[12..16] && p[16..20] == h[16..20];
    assert p[40..40 + |options|] == segment[20..20 + |options|] && p[40 + |options|..] == segment[20 + |options|..];
  }

  /** Both its checksums are over what the RFCs say: the header, and the segment behind addresses, protocol and
      length. */
  lemma PacketSums(src: Addr, dst: Addr, f: Fields, options: seq<byte>, payload: seq<byte>)
    requires |options| % 4 == 0 && |options| <= 40 && 40 + |options| + |payload| <= 0xFFFF
    ensures var p := PacketBytes(src, dst, f, options, payload);
            && |p| == 40 + |options| + |payload| && Checksum(p[..20]) == 0
            && Checksum(src + dst + [0, 6, (|p| - 20) / 256, (|p| - 20) % 256] + p[20..]) == 0
  {
    var p := PacketBytes(src, dst, f, options, payload);
    PacketLayout(src, dst, f, options, payload);
    PacketVerifies(src, dst, f, options, payload);
    hide PacketBytes, TcpChecksum, Checksum, Two, Four;
    Pseudo(src, dst, p[20..]);
  }

  lemma TwoLater(a: seq<byte>, b: seq<byte>, i: nat)
    requires i + 2 <= |b|
    ensures Two(a + b, |a| + i) == Two(b, i)
  {
  }

  lemma TwoEarlier(a: seq<byte>, b: seq<byte>, i: nat)
    requires i + 2 <= |a|
    ensures Two(a + b, i) == Two(a, i)
  {
  }

  lemma HeaderLayout(total: nat, src: Addr, dst: Addr)
    requires total <= 0xFFFF
    ensures var h := HeaderBytes(total, src, dst);
            && |h| == 20 && h[0] == 0x45 && Two(h, 2) == total && h[8] == 64 && h[9] == 6
            && h[12..16] == src && h[16..20] == dst
  {
    hide Checksum;
  }

  lemma SegmentLayout(f: Fields, csum: u16, options: seq<byte>, payload: seq<byte>)
    requires |options| % 4 == 0 && |options| <= 40
    ensures var s := TcpBytes(f, csum, options, payload);
            && |s| == 20 + |options| + |payload|
            && Two(s, 0) == f.srcPort && Two(s, 2) == f.dstPort && Four(s, 4) == f.seqno && Four(s, 8) == f.ackno
            && s[12] / 16 * 4 == 20 + |options| && s[13] == f.flags && Two(s, 14) == f.window
            && s[20..20 + |options|] == options && s[20 + |options|..] == payload
  {
    var fixedPart := FixedBytes(f, csum, |options|);
    FieldBytes(f, csum, |options|);
    OffsetNibble(|options|);
    WordIs(fixedPart[0], fixedPart[1]);
    WordIs(fixedPart[2], fixedPart[3]);
    WordIs(fixedPart[14], fixedPart[15]);
    FourRead(fixedPart, 4);
    FourRead(fixedPart, 8);
    hide FixedBytes, Word, Word32, OffsetByte;
    var s := TcpBytes(f, csum, options, payload);
    assert forall i :: 0 <= i < 20 ==> s[i] == fixedPart[i];
  }

  lemma Pseudo(src: Addr, dst: Addr, segment: seq<byte>)
    requires |segment| <= 0xFFFF
    ensures TcpChecksum(src, dst, segment) == Checksum(src + dst + [0, 6, |segment| / 256, |segment| % 256] + segment)
  {
    hide Checksum;
    assert PseudoHeader(src, dst, |segment|) == src + dst + [0, 6, |segment| / 256, |segment| % 256];
  }

  // ---- what is refused ----

  /** Which bytes are taken for an IPv4 header, and what is read from them. */
  lemma HeaderExactly(packet: seq<byte>)
    ensures var r := ParseIp(packet);
            && (r.Header? <==> |packet| >= 20 && packet[0] / 16 == 4 && packet[0] % 16 * 4 <= |packet|
                               && packet[0] % 16 * 4 <= Two(packet, 2))
            && (r.Header? ==> r.header == Ipv4Header(4, packet[0] % 16 * 4, Two(packet, 2), packet[8], packet[9],
                                                     packet[12..16], packet[16..20]))
  {
    if |packet| >= 20 {
      WordIs(packet[2], packet[3]);
    }
    hide Word;
  }

  /** Which bytes are taken for a TCP header. */
  lemma TcpHeaderExactly(s: seq<byte>)
    ensures var r := ParseTcp(s);
            && (r.Some? <==> |s| >= 20 && 20 <= s[12] / 16 * 4 <= |s|)
            && (r.Some? ==> r.value.dataOffset == s[12] / 16 * 4
                            && r.value.fields == Fields(Two(s, 0), Two(s, 2), Four(s, 4), Four(s, 8), s[13], Two(s, 14)))
  {
    if |s| >= 20 {
      WordIs(s[0], s[1]);
      WordIs(s[2], s[3]);
      WordIs(s[14], s[15]);
      FourRead(s, 4);
      FourRead(s, 8);
    }
    hide Word, Word32;
  }
}
