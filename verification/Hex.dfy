/** Hex strings: the text form of bytes that both keyed caches use as their key. */
module Hex {
  import opened Common

  const DIGITS := "0123456789abcdef"

  /** `b.toString(16).padStart(2, '0')` */
  function HexPair(b: byte): string { [DIGITS[b / 16], DIGITS[b % 16]] }

  function HexBody(bytes: seq<byte>): (h: string)
    ensures |h| == 2 * |bytes|
  {
    if bytes == [] then "" else HexPair(bytes[0]) + HexBody(bytes[1..])
  }

  function BytesToHex(bytes: seq<byte>): string { "0x" + HexBody(bytes) }

  /** The value of a hex digit, or 16 when the character is none. */
  function DigitValue(c: char): (v: nat)
    ensures v <= 16
  {
    if '0' <= c <= '9' then c as nat - '0' as nat
    else if 'a' <= c <= 'f' then c as nat - 'a' as nat + 10
    else if 'A' <= c <= 'F' then c as nat - 'A' as nat + 10
    else 16
  }

  /** The characters `parseInt` skips in front of a number. */
  predicate IsSpace(c: char) {
    || '\t' <= c <= '\r' || c in [' ', '\U{00a0}', '\U{1680}', '\U{202f}', '\U{205f}', '\U{3000}', '\U{feff}']
    || '\U{2000}' <= c <= '\U{200a}' || c == '\U{2028}' || c == '\U{2029}'
  }

  /**
   * `parseInt(pair, 16)` stored in a byte: the longest digit prefix after a space or
   * a sign counts, a negative number wraps, and no number at all is stored as zero.
   */
  function ParsePair(hi: char, lo: char): byte {
    var h, l := DigitValue(hi), DigitValue(lo);
    if h < 16 then (if l < 16 then 16 * h + l else h)
    else if l == 16 then 0
    else if hi == '+' || IsSpace(hi) then l
    else if hi == '-' then (256 - l) % 256
    else 0
  }

  function ParseBody(h: string): (bytes: seq<byte>)
    ensures |bytes| == |h| / 2
  {
    if |h| < 2 then [] else [ParsePair(h[0], h[1])] + ParseBody(h[2..])
  }

  function Prefixed(h: string): bool { |h| >= 2 && h[..2] == "0x" }

  function HexToBytes(h: string): seq<byte> {
    ParseBody(if Prefixed(h) then h[2..] else h)
  }

  lemma PairRoundTrip(b: byte)
    ensures ParsePair(DIGITS[b / 16], DIGITS[b % 16]) == b
    ensures DIGITS[b / 16] != '|' && DIGITS[b % 16] != '|'
  {
    var d := b / 16;
    assert DigitValue(DIGITS[d]) == d;
    assert DigitValue(DIGITS[b % 16]) == b % 16;
  }

  lemma {:induction false} BodyRoundTrip(bytes: seq<byte>)
    ensures ParseBody(HexBody(bytes)) == bytes
    ensures '|' !in HexBody(bytes)
  {
    if bytes != [] {
      PairRoundTrip(bytes[0]);
      BodyRoundTrip(bytes[1..]);
      assert HexBody(bytes)[2..] == HexBody(bytes[1..]);
      assert [bytes[0]] + bytes[1..] == bytes;
    }
  }

  /** Hex text determines its bytes, and never contains the separator the cache keys use. */
  lemma HexRoundTrip(bytes: seq<byte>)
    ensures HexToBytes(BytesToHex(bytes)) == bytes
    ensures '|' !in BytesToHex(bytes) && BytesToHex(bytes) != ""
  {
    BodyRoundTrip(bytes);
    assert BytesToHex(bytes)[2..] == HexBody(bytes);
  }

  predicate AllDigits(h: string) { forall c <- h :: c in DIGITS }

  /** Text in the form `bytesToHex` writes: prefixed, of even length, in lower-case digits. */
  predicate IsCanonicalHex(h: string) {
    Prefixed(h) && |h| % 2 == 0 && AllDigits(h[2..])
  }

  lemma {:induction false} CanonicalBody(h: string)
    requires |h| % 2 == 0
    ensures HexBody(ParseBody(h)) == h <==> AllDigits(h)
  {
    if |h| >= 2 {
      CanonicalBody(h[2..]);
      CanonicalPair(h[0], h[1]);
      var pair, rest := HexPair(ParsePair(h[0], h[1])), HexBody(ParseBody(h[2..]));
      assert HexBody(ParseBody(h)) == pair + rest by {
        assert ParseBody(h)[1..] == ParseBody(h[2..]);
      }
      Halves(pair, rest, [h[0], h[1]], h[2..]);
      assert h == [h[0], h[1]] + h[2..];
    }
  }

  lemma Halves(a: string, b: string, c: string, d: string)
    requires |a| == |c| == 2
    ensures a + b == c + d <==> a == c && b == d
    ensures AllDigits(c + d) <==> c[0] in DIGITS && c[1] in DIGITS && AllDigits(d)
  {
    if a + b == c + d {
      assert (a + b)[..2] == a && (c + d)[..2] == c && (a + b)[2..] == b && (c + d)[2..] == d;
    }
    if AllDigits(c + d) {
      assert (c + d)[0] == c[0] && (c + d)[1] == c[1];
      assert forall x <- d :: x in c + d;
    }
  }

  lemma CanonicalDigit(c: char)
    ensures c in DIGITS ==> DigitValue(c) < 16 && DIGITS[DigitValue(c)] == c
  {
  }

  lemma CanonicalPair(hi: char, lo: char)
    ensures HexPair(ParsePair(hi, lo)) == [hi, lo] <==> hi in DIGITS && lo in DIGITS
  {
    CanonicalDigit(hi);
    CanonicalDigit(lo);
    var p := ParsePair(hi, lo);
    if hi in DIGITS && lo in DIGITS {
      assert p == 16 * DigitValue(hi) + DigitValue(lo);
      assert p / 16 == DigitValue(hi) && p % 16 == DigitValue(lo);
    } else {
      var d := p / 16;
      assert DIGITS[d] in DIGITS && DIGITS[p % 16] in DIGITS;
    }
  }

  /** The reverse round trip holds for exactly the canonical texts. */
  lemma CanonicalHexRoundTrip(h: string)
    ensures BytesToHex(HexToBytes(h)) == h <==> IsCanonicalHex(h)
  {
    var body := if Prefixed(h) then h[2..] else h;
    if Prefixed(h) && |h| % 2 == 0 {
      CanonicalBody(body);
      assert h == "0x" + body;
      Halves("0x", HexBody(ParseBody(body)), "0x", body);
    } else if Prefixed(h) {
      assert |BytesToHex(HexToBytes(h))| % 2 == 0;
    } else {
      assert BytesToHex(HexToBytes(h))[..2] == "0x";
    }
  }

  // -- The digits themselves -----------------------------------------------------------------

  /** The character of a digit, by its code. */
  function CodeOf(d: nat): nat { if d < 10 then 48 + d else 87 + d }

  /** Byte i is written as its high and its low digit, in lower case, behind the prefix. */
  lemma {:induction false} HexDigits(bytes: seq<byte>, i: nat)
    requires i < |bytes|
    ensures |BytesToHex(bytes)| == 2 + 2 * |bytes| && BytesToHex(bytes)[0] == '0' && BytesToHex(bytes)[1] == 'x'
    ensures BytesToHex(bytes)[2 + 2 * i] as nat == CodeOf(bytes[i] / 16)
    ensures BytesToHex(bytes)[3 + 2 * i] as nat == CodeOf(bytes[i] % 16)
  {
    if i == 0 {
      DigitCodes(bytes[0] / 16);
      DigitCodes(bytes[0] % 16);
    } else {
      HexDigits(bytes[1..], i - 1);
      assert HexBody(bytes)[2 * i] == HexBody(bytes[1..])[2 * (i - 1)];
      assert HexBody(bytes)[2 * i + 1] == HexBody(bytes[1..])[2 * (i - 1) + 1];
    }
  }

  lemma DigitCodes(d: nat)
    requires d < 16
    ensures DIGITS[d] as nat == CodeOf(d)
  {
  }

  /** Reading takes digits of either case. */
  lemma ReadsEitherCase(hi: char, lo: char, h: nat, l: nat)
    requires h < 16 && l < 16
    requires hi as nat == CodeOf(h) || (h >= 10 && hi as nat == 55 + h)
    requires lo as nat == CodeOf(l) || (l >= 10 && lo as nat == 55 + l)
    ensures HexToBytes([hi, lo]) == [16 * h + l] && HexToBytes(['0', 'x', hi, lo]) == [16 * h + l]
  {
    var pair := [hi, lo];
    assert ParsePair(hi, lo) == 16 * h + l;
    assert pair[2..] == [] && ParseBody(pair) == [16 * h + l] + ParseBody([]);
    assert ['0', 'x', hi, lo][2..] == pair;
    assert pair[..2] == pair;
  }

  /** Neither case of any digit. */
  predicate NoDigit(c: char) {
    var k := c as int;
    !(48 <= k <= 57) && !(65 <= k <= 70) && !(97 <= k <= 102)
  }

  /**
   * What becomes of pairs that are no two digits: a digit followed by none counts alone; one
   * behind a plus or a space counts too, behind a minus it counts down from 256; all else is 0.
   */
  lemma ReadsOddPairs(hi: char, lo: char, d: nat)
    requires d < 16
    ensures hi as nat == CodeOf(d) && NoDigit(lo) ==> HexToBytes(['0', 'x', hi, lo]) == [d]
    ensures hi in ['+', ' '] && lo as nat == CodeOf(d) ==> HexToBytes(['0', 'x', hi, lo]) == [d]
    ensures hi == '-' && lo as nat == CodeOf(d) ==> HexToBytes(['0', 'x', hi, lo]) == [if d == 0 then 0 else 256 - d]
    ensures NoDigit(hi) && NoDigit(lo) ==> HexToBytes(['0', 'x', hi, lo]) == [0]
    ensures NoDigit(hi) && !IsSpace(hi) && hi !in ['+', '-'] ==> HexToBytes(['0', 'x', hi, lo]) == [0]
  {
    var pair := [hi, lo];
    assert pair[2..] == [] && ParseBody(pair) == [ParsePair(hi, lo)] + ParseBody([]);
    assert ['0', 'x', hi, lo][2..] == pair;
  }

  // -- The loops of the source ---------------------------------------------------

  lemma {:induction false} HexBodyAppend(bytes: seq<byte>, b: byte)
    ensures HexBody(bytes + [b]) == HexBody(bytes) + HexPair(b)
  {
    hide HexPair;
    if bytes == [] {
      assert HexBody([b]) == HexPair(b) + HexBody([]);
      assert [] + [b] == [b];
    } else {
      HexBodyAppend(bytes[1..], b);
      assert (bytes + [b])[1..] == bytes[1..] + [b] && (bytes + [b])[0] == bytes[0];
    }
  }

  method WriteHex(bytes: seq<byte>) returns (hex: string)
    ensures hex == BytesToHex(bytes)
  {
    hex := "0x";
    for i := 0 to |bytes|
      invariant hex == "0x" + HexBody(bytes[..i])
    {
      HexBodyAppend(bytes[..i], bytes[i]);
      assert bytes[..i + 1] == bytes[..i] + [bytes[i]];
      hex := hex + HexPair(bytes[i]);
    }
    assert bytes[..|bytes|] == bytes;
  }

  lemma {:induction false} ParseBodyAt(h: string, i: nat)
    requires i < |h| / 2
    ensures ParseBody(h)[i] == ParsePair(h[2 * i], h[2 * i + 1])
  {
    if i > 0 {
      ParseBodyAt(h[2..], i - 1);
    }
  }

  method ReadHex(hex: string) returns (bytes: array<byte>)
    ensures fresh(bytes) && bytes[..] == HexToBytes(hex)
  {
    var start := if Prefixed(hex) then 2 else 0;
    var length := (|hex| - start) / 2;
    bytes := new byte[length](_ => 0);
    ghost var body := hex[start..];
    for i := 0 to length
      invariant forall j :: 0 <= j < i ==> bytes[j] == ParseBody(body)[j]
    {
      ParseBodyAt(body, i);
      bytes[i] := ParsePair(hex[start + i * 2], hex[start + i * 2 + 1]);
    }
    assert body == if Prefixed(hex) then hex[2..] else hex;
  }
}
