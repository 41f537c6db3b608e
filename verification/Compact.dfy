/** SCALE compact integers and little-endian u64, with JavaScript's 32-bit operators spelled out. */
module Compact {
  import opened Common

  /** The signed 32-bit value every JavaScript bit operator produces. */
  function ToInt32(x: int): int {
    var m := x % 0x1_0000_0000;
    if m < 0x8000_0000 then m else m - 0x1_0000_0000
  }

  function ToUint32(x: int): nat { x % 0x1_0000_0000 }

  /** `x << 2`, which wraps to a negative number from 2^29 on. */
  function Shl2(x: int): int { ToInt32(x * 4) }

  /** `(x >>> k) & 0xff` with `scale == 2^k`: unsigned shift, then the low byte. */
  function ByteOf(x: int, scale: nat): byte
    requires scale > 0
  {
    ToUint32(x) / scale % 256
  }

  /** Bitwise or of unsigned numbers, bit by bit. */
  function Or(a: nat, b: nat): nat {
    if a == 0 then b
    else if b == 0 then a
    else 2 * Or(a / 2, b / 2) + if a % 2 == 1 || b % 2 == 1 then 1 else 0
  }

  /** `x | y`: bitwise or of the 32-bit patterns, read as a signed number. */
  function JsOr(x: int, y: int): int { ToInt32(Or(ToUint32(x), ToUint32(y))) }

  /** `None` is the "Compact value too large" exception. */
  function EncodeCompact(value: nat): Option<seq<byte>> {
    if value < 0x40 then
      Some([ByteOf(Shl2(value), 1)])
    else if value < 0x4000 then
      var v := JsOr(Shl2(value), 1);
      Some([ByteOf(v, 1), ByteOf(v, 0x100)])
    else if value < 0x4000_0000 then
      var v := JsOr(Shl2(value), 2);
      Some([ByteOf(v, 1), ByteOf(v, 0x100), ByteOf(v, 0x1_0000), ByteOf(v, 0x100_0000)])
    else
      None
  }

  /** A byte read as an operand of a bit operator: an index past the end reads as zero. */
  function At(data: seq<byte>, i: nat): byte {
    if i < |data| then data[i] else 0
  }

  /** The first two bytes as a little-endian number. */
  function Low(data: seq<byte>): nat { At(data, 0) + At(data, 1) * 0x100 }

  /** The value and the number of bytes the cursor advances; `None` is the big-integer mode. */
  function DecodeCompact(data: seq<byte>): Option<(nat, nat)> {
    var mode := At(data, 0) % 4;
    if mode == 0 then Some((At(data, 0) / 4, 1))
    else if mode == 1 then Some((ToUint32(JsOr(At(data, 0), ToInt32(At(data, 1) * 0x100))) / 4, 2))
    else if mode == 2 then
      var low := JsOr(At(data, 0), ToInt32(At(data, 1) * 0x100));
      var raw := JsOr(JsOr(low, ToInt32(At(data, 2) * 0x1_0000)), ToInt32(At(data, 3) * 0x100_0000));
      Some((ToUint32(raw) / 4, 4))
    else None
  }

  /** The smallest number of bytes that can hold `value`. */
  function CompactSize(value: nat): nat {
    if value < 0x40 then 1 else if value < 0x4000 then 2 else 4
  }

  // -- Or-ing disjoint bits is adding --------------------------------------------------------

  function Pow2(k: nat): nat { if k == 0 then 1 else 2 * Pow2(k - 1) }

  lemma {:induction false} OrBound(a: nat, b: nat, k: nat)
    requires a < Pow2(k) && b < Pow2(k)
    ensures Or(a, b) < Pow2(k)
  {
    if k > 0 && a > 0 && b > 0 {
      OrBound(a / 2, b / 2, k - 1);
    }
  }

  /** Bits below a multiple of 2^k are disjoint from it, on either side. */
  lemma {:induction false} OrDisjoint(low: nat, high: nat, k: nat)
    requires low < Pow2(k)
    ensures Or(low, high * Pow2(k)) == Or(high * Pow2(k), low) == low + high * Pow2(k)
  {
    if k > 0 && low > 0 && high > 0 {
      var half := high * Pow2(k - 1);
      assert high * Pow2(k) == 2 * half;
      OrDisjoint(low / 2, high, k - 1);
    }
  }

  lemma Powers()
    ensures Pow2(2) == 4 && Pow2(8) == 0x100 && Pow2(16) == 0x1_0000 && Pow2(24) == 0x100_0000 && Pow2(32) == 0x1_0000_0000
  {
    assert Pow2(4) == 16;
    assert Pow2(8) == 0x100;
    assert Pow2(12) == 0x1000;
    assert Pow2(16) == 0x1_0000;
    assert Pow2(20) == 0x10_0000;
    assert Pow2(24) == 0x100_0000;
    assert Pow2(28) == 0x1000_0000;
  }

  /** The pattern of `x | y` is the or of the patterns. */
  lemma OrPattern(x: int, y: int)
    ensures ToUint32(JsOr(x, y)) == Or(ToUint32(x), ToUint32(y))
  {
    Powers();
    OrBound(ToUint32(x), ToUint32(y), 32);
    SignedPattern(Or(ToUint32(x), ToUint32(y)));
  }

  lemma SignedPattern(w: nat)
    requires w < 0x1_0000_0000
    ensures ToUint32(ToInt32(w)) == w
  {
  }

  /** The 32-bit word that four-byte mode writes, although `<<` may have made it negative. */
  lemma WordOf(value: nat)
    requires value < 0x4000_0000
    ensures ToUint32(Shl2(value)) == 4 * value
    ensures ToUint32(JsOr(Shl2(value), 1)) == 4 * value + 1
    ensures ToUint32(JsOr(Shl2(value), 2)) == 4 * value + 2
  {
    SignedPattern(4 * value);
    OrPattern(Shl2(value), 1);
    OrPattern(Shl2(value), 2);
    Powers();
    OrDisjoint(1, value, 2);
    OrDisjoint(2, value, 2);
  }

  lemma SplitWord(w: nat)
    requires w < 0x1_0000_0000
    ensures w == w % 0x100 + w / 0x100 % 0x100 * 0x100 + w / 0x1_0000 % 0x100 * 0x1_0000
                 + w / 0x100_0000 % 0x100 * 0x100_0000
    ensures w / 0x100_0000 % 0x100 == w / 0x100_0000
  {
    assert w / 0x1_0000 == w / 0x100 / 0x100;
    assert w / 0x100_0000 == w / 0x1_0000 / 0x100;
  }

  /** The 32-bit little-endian word at the start of the data, missing bytes read as zero. */
  function Word(data: seq<byte>): nat {
    Low(data) + At(data, 2) * 0x1_0000 + At(data, 3) * 0x100_0000
  }

  /** Or-ing a byte shifted past everything read so far. */
  lemma OrStep(x: int, low: nat, b: nat, shift: nat, k: nat)
    requires shift == Pow2(k) && ToUint32(x) == low < shift && b * shift < 0x1_0000_0000
    ensures ToUint32(JsOr(x, ToInt32(b * shift))) == low + b * shift
  {
    hide *;
    SignedPattern(b * shift);
    OrPattern(x, ToInt32(b * shift));
    OrDisjoint(low, b, k);
  }

  lemma SignedLow(data: seq<byte>)
    ensures ToUint32(JsOr(At(data, 0), ToInt32(At(data, 1) * 0x100))) == Low(data) < 0x1_0000
  {
    Powers();
    OrStep(At(data, 0), At(data, 0), At(data, 1), 0x100, 8);
  }

  /** What the reading expressions make of the bytes, whatever sign the intermediate results have. */
  lemma SignedRead(data: seq<byte>)
    ensures var low := JsOr(At(data, 0), ToInt32(At(data, 1) * 0x100));
      && ToUint32(low) == Low(data)
      && ToUint32(JsOr(JsOr(low, ToInt32(At(data, 2) * 0x1_0000)), ToInt32(At(data, 3) * 0x100_0000))) == Word(data)
  {
    hide JsOr;
    hide ToInt32;
    hide ToUint32;
    hide At;
    hide Low;
    hide Pow2;
    Powers();
    var low := JsOr(At(data, 0), ToInt32(At(data, 1) * 0x100));
    SignedLow(data);
    OrStep(low, Low(data), At(data, 2), 0x1_0000, 16);
    OrStep(JsOr(low, ToInt32(At(data, 2) * 0x1_0000)), Low(data) + At(data, 2) * 0x1_0000, At(data, 3), 0x100_0000, 24);
  }

  /** Despite the signed intermediate results, decoding is plain unsigned arithmetic. */
  lemma DecodeIsUnsigned(data: seq<byte>)
    ensures DecodeCompact(data) ==
      match At(data, 0) % 4
      case 0 => Some((At(data, 0) / 4, 1))
      case 1 => Some((Low(data) / 4, 2))
      case 2 => Some((Word(data) / 4, 4))
      case _ => None
  {
    hide ToUint32;
    hide ToInt32;
    hide JsOr;
    SignedRead(data);
  }

  lemma WordFrom(b0: byte, b1: byte, b2: byte, b3: byte, rest: seq<byte>)
    ensures var data := [b0, b1, b2, b3] + rest;
      Word(data) == b0 + b1 * 0x100 + b2 * 0x1_0000 + b3 * 0x100_0000 && At(data, 0) == b0
  {
  }

  /** The bytes of a four-byte-mode word spell the word. */
  lemma WordOfBytes(w: nat, rest: seq<byte>)
    requires w < 0x1_0000_0000
    ensures var data := [w % 0x100, w / 0x100 % 0x100, w / 0x1_0000 % 0x100, w / 0x100_0000 % 0x100] + rest;
      Word(data) == w && At(data, 0) % 4 == w % 4
  {
    hide Word;
    hide At;
    WordFrom(w % 0x100, w / 0x100 % 0x100, w / 0x1_0000 % 0x100, w / 0x100_0000 % 0x100, rest);
    SplitWord(w);
  }

  lemma OneByteRoundTrip(value: nat, rest: seq<byte>)
    requires value < 0x40
    ensures EncodeCompact(value) == Some([4 * value])
    ensures DecodeCompact([4 * value] + rest) == Some((value, 1))
  {
    hide JsOr;
    hide ToInt32;
    WordOf(value);
  }

  lemma TwoByteEncoding(value: nat)
    requires 0x40 <= value < 0x4000
    ensures var w := 4 * value + 1; EncodeCompact(value) == Some([w % 0x100, w / 0x100])
  {
    hide JsOr;
    hide ToInt32;
    WordOf(value);
  }

  lemma TwoByteRoundTrip(value: nat, rest: seq<byte>)
    requires 0x40 <= value < 0x4000
    ensures EncodeCompact(value).Some? && |EncodeCompact(value).value| == 2
    ensures DecodeCompact(EncodeCompact(value).value + rest) == Some((value, 2))
  {
    hide EncodeCompact;
    hide DecodeCompact;
    TwoByteEncoding(value);
    var w := 4 * value + 1;
    var bytes := [w % 0x100, w / 0x100];
    assert At(bytes + rest, 0) == w % 0x100 && Low(bytes + rest) == w;
    DecodeIsUnsigned(bytes + rest);
  }

  lemma FourByteEncoding(value: nat)
    requires 0x4000 <= value < 0x4000_0000
    ensures var w := 4 * value + 2;
      EncodeCompact(value) == Some([w % 0x100, w / 0x100 % 0x100, w / 0x1_0000 % 0x100, w / 0x100_0000 % 0x100])
  {
    hide JsOr;
    hide ToInt32;
    WordOf(value);
  }

  lemma FourByteRoundTrip(value: nat, rest: seq<byte>)
    requires 0x4000 <= value < 0x4000_0000
    ensures EncodeCompact(value).Some? && |EncodeCompact(value).value| == 4
    ensures DecodeCompact(EncodeCompact(value).value + rest) == Some((value, 4))
  {
    hide *;
    FourByteEncoding(value);
    var w := 4 * value + 2;
    WordOfBytes(w, rest);
    DecodeIsUnsigned(EncodeCompact(value).value + rest);
    assert w % 4 == 2 && w / 4 == value;
  }

  /** Decoding what was encoded, whatever follows it, gives the value and its length back. */
  lemma CompactRoundTrip(value: nat, rest: seq<byte>)
    requires value < 0x4000_0000
    ensures EncodeCompact(value).Some?
    ensures |EncodeCompact(value).value| == CompactSize(value)
    ensures DecodeCompact(EncodeCompact(value).value + rest) == Some((value, CompactSize(value)))
  {
    if value < 0x40 {
      OneByteRoundTrip(value, rest);
    } else if value < 0x4000 {
      TwoByteRoundTrip(value, rest);
    } else {
      FourByteRoundTrip(value, rest);
    }
  }

  /** A decoded compact fits 30 bits; if it lies in bounds and is minimal, encoding gives its bytes back. */
  lemma CompactCanonical(data: seq<byte>)
    requires DecodeCompact(data).Some?
    ensures var (value, used) := DecodeCompact(data).value;
      && value < 0x4000_0000
      && CompactSize(value) <= used <= 4
      && (used <= |data| && used == CompactSize(value) ==> EncodeCompact(value) == Some(data[..used]))
  {
    hide DecodeCompact;
    hide JsOr;
    hide ToInt32;
    DecodeIsUnsigned(data);
    var (value, used) := DecodeCompact(data).value;
    if used <= |data| && used == CompactSize(value) {
      if used == 4 {
        FourByteCanonical(data);
      } else if used == 2 {
        TwoByteCanonical(data);
      } else {
        WordOf(value);
        assert EncodeCompact(value).value == data[..1];
      }
    }
  }

  lemma TwoByteCanonical(data: seq<byte>)
    requires |data| >= 2 && data[0] % 4 == 1 && Low(data) / 4 >= 0x40
    ensures EncodeCompact(Low(data) / 4) == Some(data[..2])
  {
    var value, w := Low(data) / 4, Low(data);
    assert w == 4 * value + 1;
    WordOf(value);
    WordBytes(data[0], data[1], 0, 0);
    assert EncodeCompact(value).value == [data[0], data[1]] == data[..2];
  }

  lemma FourByteCanonical(data: seq<byte>)
    requires |data| >= 4 && data[0] % 4 == 2 && Word(data) / 4 >= 0x4000
    ensures EncodeCompact(Word(data) / 4) == Some(data[..4])
  {
    var value, w := Word(data) / 4, Word(data);
    assert w == 4 * value + 2;
    WordOf(value);
    WordBytes(data[0], data[1], data[2], data[3]);
    assert EncodeCompact(value).value == [data[0], data[1], data[2], data[3]] == data[..4];
  }

  lemma WordBytes(a: byte, b: byte, c: byte, d: byte)
    ensures var w := a + b * 0x100 + c * 0x1_0000 + d * 0x100_0000;
      w % 0x100 == a && w / 0x100 % 0x100 == b && w / 0x1_0000 % 0x100 == c && w / 0x100_0000 % 0x100 == d
  {
    var w := a + b * 0x100 + c * 0x1_0000 + d * 0x100_0000;
    var w1 := b + c * 0x100 + d * 0x1_0000;
    var w2 := c + d * 0x100;
    assert w == a + 0x100 * w1 && w1 == b + 0x100 * w2;
    SplitWord(w);
    assert w / 0x100 == w1 && w1 / 0x100 == w2 && w2 / 0x100 == d;
  }

  // -- u64, little-endian ------------------------------------------------------

  function LittleEndian(value: nat, n: nat): (bytes: seq<byte>)
    ensures |bytes| == n
  {
    if n == 0 then [] else [value % 256] + LittleEndian(value / 256, n - 1)
  }

  function FromLittleEndian(bytes: seq<byte>): nat {
    if bytes == [] then 0 else bytes[0] + 256 * FromLittleEndian(bytes[1..])
  }

  function Pow256(n: nat): (p: nat)
    ensures p > 0
  {
    if n == 0 then 1 else 256 * Pow256(n - 1)
  }

  /** `setBigUint64` keeps the low 64 bits of whatever bigint it is given. */
  function EncodeU64(value: int): (bytes: seq<byte>)
    ensures |bytes| == 8
  {
    LittleEndian(value % 0x1_0000_0000_0000_0000, 8)
  }

  lemma {:induction false} FromToLittleEndian(value: nat, n: nat)
    requires value < Pow256(n)
    ensures FromLittleEndian(LittleEndian(value, n)) == value
  {
    if n > 0 {
      FromToLittleEndian(value / 256, n - 1);
      assert LittleEndian(value, n)[1..] == LittleEndian(value / 256, n - 1);
    }
  }

  lemma Digit(low: byte, high: nat, bound: nat)
    requires high < bound
    ensures low + 256 * high < 256 * bound
    ensures (low + 256 * high) % 256 == low && (low + 256 * high) / 256 == high
  {
  }

  lemma {:induction false} ToFromLittleEndian(bytes: seq<byte>)
    ensures FromLittleEndian(bytes) < Pow256(|bytes|)
    ensures LittleEndian(FromLittleEndian(bytes), |bytes|) == bytes
  {
    if bytes != [] {
      ToFromLittleEndian(bytes[1..]);
      Digit(bytes[0], FromLittleEndian(bytes[1..]), Pow256(|bytes| - 1));
      assert bytes == [bytes[0]] + bytes[1..];
    }
  }

  lemma Pow256Of8()
    ensures Pow256(8) == 0x1_0000_0000_0000_0000
  {
    assert Pow256(4) == 0x1_0000_0000;
    assert Pow256(6) == 0x1_0000 * 0x1_0000_0000;
  }

  /** Reading back a u64: the original modulo 2^64, and every eight bytes are some u64. */
  lemma U64RoundTrip(value: int, bytes: seq<byte>)
    requires |bytes| == 8
    ensures FromLittleEndian(EncodeU64(value)) == value % 0x1_0000_0000_0000_0000
    ensures FromLittleEndian(bytes) < 0x1_0000_0000_0000_0000
    ensures EncodeU64(FromLittleEndian(bytes)) == bytes
  {
    Pow256Of8();
    FromToLittleEndian(value % 0x1_0000_0000_0000_0000, 8);
    ToFromLittleEndian(bytes);
    var v := FromLittleEndian(bytes);
    assert v % 0x1_0000_0000_0000_0000 == v;
  }
}
