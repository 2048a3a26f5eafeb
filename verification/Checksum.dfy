/** The Internet checksum (src/utils.rs, RFC 1071): the word loop and the end-around-carry loop compute
    the one's-complement sum, and a message that contains its own checksum sums to zero. */
module InternetChecksum {
  import opened Types

  /** `u16::from_be_bytes` */
  function Word(hi: byte, lo: byte): u16 {
    (hi as int) * 256 + lo as int
  }

  /** Big-endian 16-bit words added up; a last odd byte is the high half of a word. */
  function WordSum(data: seq<byte>): nat {
    if data == [] then 0
    else if |data| % 2 == 1 then WordSum(data[..|data| - 1]) + Word(data[|data| - 1], 0)
    else WordSum(data[..|data| - 2]) + Word(data[|data| - 2], data[|data| - 1])
  }

  /** The end-around carry: what is above bit 15 is added back below until nothing is. */
  function Folded(sum: nat): nat {
    if sum < 0x1_0000 then sum else Folded(sum % 0x1_0000 + sum / 0x1_0000)
  }

  /** One's-complement addition of all the words is addition modulo 2^16 - 1, with 0 only for no bits
      at all. */
  lemma {:induction false} FoldedIsOnesComplement(sum: nat)
    ensures Folded(sum) == if sum == 0 then 0 else (sum - 1) % 0xFFFF + 1
  {
    if sum >= 0x1_0000 {
      var next := sum % 0x1_0000 + sum / 0x1_0000;
      FoldedIsOnesComplement(next);
      assert sum - 1 == next - 1 + sum / 0x1_0000 * 0xFFFF;
      ModPlus(next - 1, sum / 0x1_0000);
    }
  }

  lemma ModPlus(x: nat, k: nat)
    ensures (x + k * 0xFFFF) % 0xFFFF == x % 0xFFFF
  {
  }

  function Checksum(data: seq<byte>): u16 {
    FoldedIsOnesComplement(WordSum(data));
    0xFFFF - Folded(WordSum(data))
  }

  /** The loops of the source. The 32-bit sum has room for 65537 words. */
  method ComputeChecksum(data: seq<byte>) returns (c: u16)
    requires |data| <= 2 * 65537
    ensures c == Checksum(data)
  {
    var sum: u32 := 0;
    var i := 0;
    while i + 2 <= |data|
      invariant 0 <= i <= |data| && i % 2 == 0
      invariant sum == WordSum(data[..i]) && sum <= i / 2 * 0xFFFF
    {
      assert data[..i + 2][..i] == data[..i];
      sum := sum + Word(data[i], data[i + 1]);
      i := i + 2;
    }
    if i < |data| {
      assert data == data[..i] + [data[i]];
      sum := sum + Word(data[i], 0);
    } else {
      assert data == data[..i];
    }
    var folded := FoldCarries(sum);
    c := 0xFFFF - folded;
  }

  method FoldCarries(start: u32) returns (sum: u16)
    ensures sum == Folded(start)
  {
    var s: u32 := start;
    while s / 0x1_0000 != 0
      invariant Folded(s) == Folded(start)
      decreases s
    {
      s := s % 0x1_0000 + s / 0x1_0000;
    }
    sum := s;
  }

  // ---- verification ----

  /** Replacing the word at an even offset changes the sum by the difference. */
  lemma {:induction false} WordReplaced(data: seq<byte>, p: nat, hi: byte, lo: byte)
    requires p % 2 == 0 && p + 2 <= |data|
    ensures WordSum(data[p := hi][p + 1 := lo]) == WordSum(data) - Word(data[p], data[p + 1]) + Word(hi, lo)
  {
    var data' := data[p := hi][p + 1 := lo];
    var cut := if |data| % 2 == 1 then |data| - 1 else |data| - 2;
    if p < cut {
      WordReplaced(data[..cut], p, hi, lo);
      assert data'[..cut] == data[..cut][p := hi][p + 1 := lo];
    } else {
      assert data'[..cut] == data[..cut];
    }
  }

  /** Storing the checksum in its own zeroed field makes the whole verify to zero. */
  lemma StoredVerifies(data: seq<byte>, p: nat)
    requires p % 2 == 0 && p + 2 <= |data| && data[p] == 0 && data[p + 1] == 0
    ensures Checksum(data[p := Checksum(data) / 256][p + 1 := Checksum(data) % 256]) == 0
  {
    var c := Checksum(data);
    var s := WordSum(data);
    WordReplaced(data, p, c / 256, c % 256);
    FoldedIsOnesComplement(s);
    FoldedIsOnesComplement(s + c);
    if s > 0 {
      ModPlus(0xFFFE, (s - 1) / 0xFFFF);
      assert s + c - 1 == 0xFFFE + (s - 1) / 0xFFFF * 0xFFFF;
    }
  }

  /** Verification accepts exactly the messages whose words sum to a positive multiple of 2^16 - 1, so
      changing any one word to another is noticed, except all zeros for all ones. */
  lemma VerifiesExactly(data: seq<byte>)
    ensures Checksum(data) == 0 <==> WordSum(data) > 0 && WordSum(data) % 0xFFFF == 0
  {
    var s := WordSum(data);
    FoldedIsOnesComplement(s);
    if s > 0 {
      PredMod(s);
    }
  }

  lemma PredMod(s: nat)
    requires s > 0
    ensures (s - 1) % 0xFFFF == 0xFFFE <==> s % 0xFFFF == 0
  {
  }

  lemma SingleWordChangeNoticed(data: seq<byte>, p: nat, hi: byte, lo: byte)
    requires p % 2 == 0 && p + 2 <= |data| && Checksum(data) == 0
    ensures var was := Word(data[p], data[p + 1]);
            var now := Word(hi, lo);
            Checksum(data[p := hi][p + 1 := lo]) == 0 ==>
              was == now || (was == 0 && now == 0xFFFF) || (was == 0xFFFF && now == 0)
  {
    var was := Word(data[p], data[p + 1]);
    var now := Word(hi, lo);
    WordReplaced(data, p, hi, lo);
    VerifiesExactly(data);
    VerifiesExactly(data[p := hi][p + 1 := lo]);
    if Checksum(data[p := hi][p + 1 := lo]) == 0 {
      Multiples(WordSum(data), WordSum(data) - was + now);
    }
  }

  lemma Multiples(x: nat, y: nat)
    requires x % 0xFFFF == 0 && y % 0xFFFF == 0 && -0xFFFF <= y - x <= 0xFFFF
    ensures y == x || y == x + 0xFFFF || y == x - 0xFFFF
  {
    var q := x / 0xFFFF;
    var r := y / 0xFFFF;
    assert x == q * 0xFFFF && y == r * 0xFFFF;
    assert -1 <= r - q <= 1;
  }
}
