/** Octets and the big-endian integers that every message of the protocol is built from. */
module Bytes {

  type byte = b: int | 0 <= b < 256

  /** `be16` of the demuxer. */
  function Be16(s: seq<byte>): (v: nat)
    requires |s| >= 2
    ensures v < 0x1_0000
  {
    s[0] as int * 256 + s[1] as int
  }

  /** `be32` of the demuxer. */
  function Be32(s: seq<byte>): (v: nat)
    requires |s| >= 4
    ensures v < 0x1_0000_0000
  {
    s[0] as int * 0x100_0000 + s[1] as int * 0x1_0000 + s[2] as int * 256 + s[3] as int
  }

  /** `be64` of the demuxer: two 32-bit halves. */
  function Be64(s: seq<byte>): (v: nat)
    requires |s| >= 8
    ensures v < 0x1_0000_0000_0000_0000
  {
    Be32(s) * 0x1_0000_0000 + Be32(s[4..])
  }

  /** The bytes `putShort` stores; bits above the low 16 are dropped. */
  function Put16(v: nat): (s: seq<byte>)
    ensures |s| == 2
  {
    [v / 256 % 256, v % 256]
  }

  /** The bytes `put_u32` and `putInt` store; bits above the low 32 are dropped. */
  function Put32(v: nat): (s: seq<byte>)
    ensures |s| == 4
  {
    [v / 0x100_0000 % 256, v / 0x1_0000 % 256, v / 256 % 256, v % 256]
  }

  /** 256 to the power n. */
  function Pow256(n: nat): (p: nat)
    ensures p > 0
  {
    if n == 0 then 1 else 256 * Pow256(n - 1)
  }

  /** The byte of weight 256^n of v: what a Java `(byte) (v >>> (8 * n))` keeps. */
  function ByteOf(v: nat, n: nat): (b: byte)
  {
    v / Pow256(n) % 256
  }

  /** The eight bytes of a 64-bit value, most significant first. */
  function Put64(v: nat): (s: seq<byte>)
    ensures |s| == 8
  {
    seq(8, i requires 0 <= i < 8 => ByteOf(v, 7 - i))
  }

  lemma Pow256Values()
    ensures Pow256(0) == 1 && Pow256(1) == 256 && Pow256(2) == 0x1_0000 && Pow256(3) == 0x100_0000
    ensures Pow256(4) == 0x1_0000_0000 && Pow256(5) == 0x100_0000_0000
    ensures Pow256(6) == 0x1_0000_0000_0000 && Pow256(7) == 0x100_0000_0000_0000
  {
    assert Pow256(1) == 256 * Pow256(0);
    assert Pow256(2) == 256 * Pow256(1);
    assert Pow256(3) == 256 * Pow256(2);
    assert Pow256(4) == 256 * Pow256(3);
    assert Pow256(5) == 256 * Pow256(4);
    assert Pow256(6) == 256 * Pow256(5);
    assert Pow256(7) == 256 * Pow256(6);
  }

  /** Dividing octet by octet. */
  lemma DivChain(v: nat)
    ensures v / 0x1_0000 == v / 256 / 256
    ensures v / 0x100_0000 == v / 0x1_0000 / 256
    ensures v / 0x1_0000_0000 == v / 0x100_0000 / 256
  {
  }

  lemma Put16Be16(v: nat)
    ensures Be16(Put16(v)) == v % 0x1_0000
  {
    DivChain(v);
    var q := v / 256;
    assert v == q * 256 + v % 256 && q == q / 256 * 256 + q % 256;
  }

  /** Writing then reading 32 bits gives the value back, reduced to its low 32 bits. */
  lemma Put32Be32(v: nat)
    ensures Be32(Put32(v)) == v % 0x1_0000_0000
  {
    DivChain(v);
    var q1, q2, q3, q4 := v / 256, v / 0x1_0000, v / 0x100_0000, v / 0x1_0000_0000;
    assert v == q1 * 256 + v % 256;
    assert q1 == q2 * 256 + q1 % 256;
    assert q2 == q3 * 256 + q2 % 256;
    assert q3 == q4 * 256 + q3 % 256;
  }

  /** Base-256 digits determine a 32-bit value's octets. */
  lemma Put32Digits(a: byte, b: byte, c: byte, d: byte)
    ensures Put32(a as int * 0x100_0000 + b as int * 0x1_0000 + c as int * 256 + d as int) == [a, b, c, d]
  {
    var ab := a as int * 256 + b as int;
    var abc := ab * 256 + c as int;
    var v := abc * 256 + d as int;
    DivChain(v);
    assert v / 256 == abc && v % 256 == d;
    assert abc / 256 == ab && abc % 256 == c;
    assert ab / 256 == a && ab % 256 == b;
  }

  /** The four low octets of any value are those of its remainder modulo 2^32. */
  lemma LowOctets(v: nat)
    ensures Put32(v) == Put32(v % 0x1_0000_0000)
  {
    Put32Be32(v);
    var s := Put32(v);
    Put32Digits(s[0], s[1], s[2], s[3]);
  }

  /** A 64-bit value is laid out as its two 32-bit halves. */
  lemma Put64Halves(v: nat)
    requires v < 0x1_0000_0000_0000_0000
    ensures Put64(v) == Put32(v / 0x1_0000_0000) + Put32(v % 0x1_0000_0000)
  {
    Pow256Values();
    LowOctets(v);
    var hi := v / 0x1_0000_0000;
    assert v / 0x100_0000_0000 == hi / 256;
    assert v / 0x1_0000_0000_0000 == hi / 0x1_0000;
    assert v / 0x100_0000_0000_0000 == hi / 0x100_0000;
    assert Put64(v) == [ByteOf(v, 7), ByteOf(v, 6), ByteOf(v, 5), ByteOf(v, 4),
                        ByteOf(v, 3), ByteOf(v, 2), ByteOf(v, 1), ByteOf(v, 0)];
  }

  /** Writing then reading a 64-bit value gives it back. */
  lemma Put64Be64(v: nat)
    requires v < 0x1_0000_0000_0000_0000
    ensures Be64(Put64(v)) == v
  {
    hide Be64, Put64, Put32;
    var hi, lo := v / 0x1_0000_0000, v % 0x1_0000_0000;
    Put64Halves(v);
    assert hi < 0x1_0000_0000;
    HalvesBe64(hi, lo);
  }

  lemma HalvesBe64(hi: nat, lo: nat)
    requires hi < 0x1_0000_0000 && lo < 0x1_0000_0000
    ensures Be64(Put32(hi) + Put32(lo)) == hi * 0x1_0000_0000 + lo
  {
    hide Put32;
    Put32Be32(hi);
    Put32Be32(lo);
    var s := Put32(hi) + Put32(lo);
    assert s[..4] == Put32(hi) && s[4..] == Put32(lo);
    BePrefix(s, Put32(hi));
  }

  /** Only the first four (eight) bytes matter. */
  lemma BePrefix(s: seq<byte>, t: seq<byte>)
    requires |s| >= 4 && |t| >= 4 && s[..4] == t[..4]
    ensures Be32(s) == Be32(t)
    ensures |s| >= 8 && |t| >= 8 && s[..8] == t[..8] ==> Be64(s) == Be64(t)
  {
    assert forall i :: 0 <= i < 4 ==> s[i] == s[..4][i] && t[i] == t[..4][i];
    if |s| >= 8 && |t| >= 8 && s[..8] == t[..8] {
      assert forall i :: 4 <= i < 8 ==> s[i] == s[..8][i] && t[i] == t[..8][i];
    }
  }

  /** A 64-bit word and a 32-bit word are read back from the head of any sequence that starts with them. */
  lemma ReadBack(word: nat, len: nat, s: seq<byte>)
    requires word < 0x1_0000_0000_0000_0000 && len < 0x1_0000_0000 && |s| >= 12
    requires s[..8] == Put64(word) && s[8..12] == Put32(len)
    ensures Be64(s) == word && Be32(s[8..]) == len
  {
    hide Be64, Be32, Put64, Put32;
    Put64Be64(word);
    Put32Be32(len);
    assert s[..4] == s[..8][..4];
    BePrefix(s, Put64(word));
    assert s[8..][..4] == s[8..12];
    BePrefix(s[8..], Put32(len));
  }
}
