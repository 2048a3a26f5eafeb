/** Packets as bytes: the IPv4 and TCP headers (src/ip.rs, src/tcp.rs) and the option blobs. Building
    and parsing are inverse, and both checksums of a built packet verify. */
module Wire {
  import opened Types
  import opened Segments
  import opened InternetChecksum

  type Addr = a: seq<byte> | |a| == 4 witness [0, 0, 0, 0]

  const OPT_END: byte := 0
  const OPT_NOP: byte := 1
  const OPT_MSS: byte := 2
  const OPT_WS: byte := 3
  const OPT_SACK_PERM: byte := 4
  const OPT_SACK: byte := 5
  const OPT_TS: byte := 8

  function Be16(x: u16): seq<byte> {
    [x / 256, x % 256]
  }

  function Be32(x: u32): seq<byte> {
    Be16(x / 0x1_0000) + Be16(x % 0x1_0000)
  }

  function Word32(a: byte, b: byte, c: byte, d: byte): u32 {
    (Word(a, b) as int) * 0x1_0000 + Word(c, d) as int
  }

  lemma WordOf(x: u16)
    ensures Word(Be16(x)[0], Be16(x)[1]) == x
  {
  }

  lemma Word32Of(x: u32)
    ensures |Be32(x)| == 4 && Word32(Be32(x)[0], Be32(x)[1], Be32(x)[2], Be32(x)[3]) == x
  {
    WordOf(x / 0x1_0000);
    WordOf(x % 0x1_0000);
  }

  // ---- options ----

  /** Walk the kind/length-prefixed options, stopping at the end marker or at anything malformed. */
  function ParseFrom(opts: seq<byte>, acc: Options): Options {
    if opts == [] || opts[0] == OPT_END then acc
    else if opts[0] == OPT_NOP then ParseFrom(opts[1..], acc)
    else if |opts| < 2 || opts[1] < 2 || opts[1] > |opts| then acc
    else ParseFrom(opts[opts[1]..], ReadOption(opts[0], opts[2..opts[1]], acc))
  }

  function ReadOption(kind: byte, data: seq<byte>, acc: Options): Options {
    if kind == OPT_MSS && |data| == 2 then acc.(mss := Some(Word(data[0], data[1])))
    else if kind == OPT_TS && |data| == 8 then
      acc.(ts := Some(Stamp(Word32(data[0], data[1], data[2], data[3]), Word32(data[4], data[5], data[6], data[7]))))
    else if kind == OPT_WS && |data| == 1 then acc.(wscale := Some(Min(data[0], MAX_WSCALE)))
    else if kind == OPT_SACK_PERM && data == [] then acc.(sackPermitted := true)
    else if kind == OPT_SACK && data != [] && |data| % 8 == 0 then acc.(sack := Blocks(data, Min(|data| / 8, 4)))
    else acc
  }

  /** The first n (left, right) pairs. */
  function Blocks(data: seq<byte>, n: nat): (r: seq<Block>)
    requires n * 8 <= |data|
    ensures |r| == n
  {
    if n == 0 then [] else
      var k := (n - 1) * 8;
      Blocks(data, n - 1) +
      [Block(Word32(data[k], data[k + 1], data[k + 2], data[k + 3]), Word32(data[k + 4], data[k + 5], data[k + 6], data[k + 7]))]
  }

  function ParseOptions(opts: seq<byte>): Options {
    ParseFrom(opts, NO_OPTIONS)
  }

  /** The index loop of the source. */
  method ComputeOptions(opts: seq<byte>) returns (out: Options)
    ensures out == ParseOptions(opts)
  {
    hide ReadOption;
    out := NO_OPTIONS;
    var i := 0;
    while i < |opts|
      invariant 0 <= i <= |opts|
      invariant ParseFrom(opts[i..], out) == ParseOptions(opts)
    {
      ghost var rest := opts[i..];
      if opts[i] == OPT_END {
        break;
      } else if opts[i] == OPT_NOP {
        assert rest[1..] == opts[i + 1..];
        i := i + 1;
      } else {
        if i + 1 >= |opts| {
          break;
        }
        var len: nat := opts[i + 1];
        if len < 2 || i + len > |opts| {
          break;
        }
        var data := opts[i + 2..i + len];
        assert data == rest[2..len] && rest[len..] == opts[i + len..];
        out := ReadOption(opts[i], data, out);
        i := i + len;
      }
    }
  }

  // ---- option blobs ----

  datatype Blob = MssBlob(mss: u16) | WsBlob(shift: byte) | TsBlob(val: u32, ecr: u32) | PermBlob | SackBlob(blocks: seq<Block>)

  function Pairs(blocks: seq<Block>): seq<byte> {
    if blocks == [] then [] else
      Pairs(blocks[..|blocks| - 1]) + Be32(blocks[|blocks| - 1].left) + Be32(blocks[|blocks| - 1].right)
  }

  function Encode(b: Blob): seq<byte> {
    match b
    case MssBlob(mss) => [OPT_MSS, 4] + Be16(mss)
    case WsBlob(shift) => [OPT_NOP, OPT_WS, 3, shift]
    case TsBlob(val, ecr) => [OPT_NOP, OPT_NOP, OPT_TS, 10] + Be32(val) + Be32(ecr)
    case PermBlob => [OPT_NOP, OPT_NOP, OPT_SACK_PERM, 2]
    case SackBlob(blocks) =>
      var n := Min(|blocks|, MAX_SACK_BLOCKS);
      if n == 0 then [] else [OPT_NOP, OPT_NOP, OPT_SACK, 2 + 8 * n] + Pairs(blocks[..n])
  }

  /** What a blob says. */
  function Effect(b: Blob, acc: Options): Options {
    match b
    case MssBlob(mss) => acc.(mss := Some(mss))
    case WsBlob(shift) => acc.(wscale := Some(Min(shift, MAX_WSCALE)))
    case TsBlob(val, ecr) => acc.(ts := Some(Stamp(val, ecr)))
    case PermBlob => acc.(sackPermitted := true)
    case SackBlob(blocks) => if blocks == [] then acc else acc.(sack := blocks[..Min(|blocks|, MAX_SACK_BLOCKS)])
  }

  function EncodeAll(bs: seq<Blob>): seq<byte> {
    if bs == [] then [] else Encode(bs[0]) + EncodeAll(bs[1..])
  }

  function EffectAll(bs: seq<Blob>, acc: Options): Options {
    if bs == [] then acc else EffectAll(bs[1..], Effect(bs[0], acc))
  }

  lemma {:induction false} PairsBlocks(blocks: seq<Block>, data: seq<byte>)
    requires Pairs(blocks) <= data
    ensures |Pairs(blocks)| == 8 * |blocks| && 8 * |blocks| <= |data| && Blocks(data, |blocks|) == blocks
  {
    if blocks != [] {
      var n := |blocks| - 1;
      var last := blocks[n];
      PairsBlocks(blocks[..n], data);
      Word32Of(last.left);
      Word32Of(last.right);
      var k := n * 8;
      hide Word32, Be32;
      var pair := data[k..k + 8];
      assert pair == Be32(last.left) + Be32(last.right);
      assert forall j :: 0 <= j < 8 ==> pair[j] == data[k + j];
    }
  }

  lemma NopSkipped(rest: seq<byte>, acc: Options)
    ensures ParseFrom([OPT_NOP] + rest, acc) == ParseFrom(rest, acc)
  {
    hide ReadOption;
    assert ([OPT_NOP] + rest)[1..] == rest;
  }

  lemma BareOption(kind: byte, data: seq<byte>, rest: seq<byte>, acc: Options)
    requires kind != OPT_END && kind != OPT_NOP && |data| + 2 < 256
    ensures ParseFrom([kind, |data| + 2] + data + rest, acc) == ParseFrom(rest, ReadOption(kind, data, acc))
  {
    hide ReadOption;
    var body := [kind, |data| + 2] + data + rest;
    assert body[2..|data| + 2] == data && body[|data| + 2..] == rest;
  }

  /** One option with its padding, read off the front. */
  lemma OneOption(pad: nat, kind: byte, data: seq<byte>, rest: seq<byte>, acc: Options)
    requires pad <= 2 && kind != OPT_END && kind != OPT_NOP && |data| + 2 < 256
    ensures var nops := if pad == 0 then [] else if pad == 1 then [OPT_NOP] else [OPT_NOP, OPT_NOP];
            ParseFrom(nops + [kind, |data| + 2] + data + rest, acc) == ParseFrom(rest, ReadOption(kind, data, acc))
  {
    hide ReadOption, ParseFrom;
    var body := [kind, |data| + 2] + data + rest;
    BareOption(kind, data, rest, acc);
    NopSkipped(body, acc);
    NopSkipped([OPT_NOP] + body, acc);
    if pad == 0 {
      assert [] + [kind, |data| + 2] + data + rest == body;
    } else if pad == 1 {
      assert [OPT_NOP] + [kind, |data| + 2] + data + rest == [OPT_NOP] + body;
    } else {
      assert [OPT_NOP, OPT_NOP] + [kind, |data| + 2] + data + rest == [OPT_NOP] + ([OPT_NOP] + body);
    }
  }

  lemma BlobParses(b: Blob, rest: seq<byte>, acc: Options)
    ensures ParseFrom(Encode(b) + rest, acc) == ParseFrom(rest, Effect(b, acc))
  {
    match b {
      case MssBlob(mss) =>
        WordOf(mss);
        OneOption(0, OPT_MSS, Be16(mss), rest, acc);
        assert Encode(b) + rest == [] + [OPT_MSS, 4] + Be16(mss) + rest;
      case WsBlob(shift) =>
        OneOption(1, OPT_WS, [shift], rest, acc);
        assert Encode(b) + rest == [OPT_NOP] + [OPT_WS, 3] + [shift] + rest;
      case TsBlob(val, ecr) => TsParses(val, ecr, rest, acc);
      case PermBlob =>
        OneOption(2, OPT_SACK_PERM, [], rest, acc);
        assert Encode(b) + rest == [OPT_NOP, OPT_NOP] + [OPT_SACK_PERM, 2] + [] + rest;
      case SackBlob(blocks) => SackParses(blocks, rest, acc);
    }
  }

  lemma TsParses(val: u32, ecr: u32, rest: seq<byte>, acc: Options)
    ensures ParseFrom(Encode(TsBlob(val, ecr)) + rest, acc) == ParseFrom(rest, acc.(ts := Some(Stamp(val, ecr))))
  {
    Word32Of(val);
    Word32Of(ecr);
    hide Be32, Word32, ParseFrom;
    var data := Be32(val) + Be32(ecr);
    OneOption(2, OPT_TS, data, rest, acc);
    assert Encode(TsBlob(val, ecr)) + rest == [OPT_NOP, OPT_NOP] + [OPT_TS, 10] + data + rest;
  }

  lemma SackParses(blocks: seq<Block>, rest: seq<byte>, acc: Options)
    ensures ParseFrom(Encode(SackBlob(blocks)) + rest, acc) == ParseFrom(rest, Effect(SackBlob(blocks), acc))
  {
    if blocks == [] {
      assert [] + rest == rest;
    } else {
      var some := blocks[..Min(|blocks|, MAX_SACK_BLOCKS)];
      var data := Pairs(some);
      PairsBlocks(some, data);
      SackBytes(blocks);
      hide ParseFrom, Pairs, Blocks, Encode, ReadOption;
      OneOption(2, OPT_SACK, data, rest, acc);
      SackRead(some, data, acc);
    }
  }

  lemma SackBytes(blocks: seq<Block>)
    requires blocks != [] && |Pairs(blocks[..Min(|blocks|, MAX_SACK_BLOCKS)])| == 8 * Min(|blocks|, MAX_SACK_BLOCKS)
    ensures var data := Pairs(blocks[..Min(|blocks|, MAX_SACK_BLOCKS)]);
            Encode(SackBlob(blocks)) == [OPT_NOP, OPT_NOP] + [OPT_SACK, |data| + 2] + data
  {
    hide Pairs;
  }

  lemma SackRead(blocks: seq<Block>, data: seq<byte>, acc: Options)
    requires 0 < |blocks| <= 4 && |data| == 8 * |blocks| && Blocks(data, |blocks|) == blocks
    ensures ReadOption(OPT_SACK, data, acc) == acc.(sack := blocks)
  {
    hide Blocks;
    assert Min(|data| / 8, 4) == |blocks|;
  }

  /** Any concatenation of the blobs the connection emits parses back to what they say, in order. */
  lemma {:induction false} BlobsParse(bs: seq<Blob>, acc: Options)
    ensures ParseFrom(EncodeAll(bs), acc) == EffectAll(bs, acc)
  {
    if bs != [] {
      BlobParses(bs[0], EncodeAll(bs[1..]), acc);
      BlobsParse(bs[1..], Effect(bs[0], acc));
    }
  }
}
