/**
 * The wire layout of statements, written out: which bytes stand where, independently of how
 * the printer puts them together. The compact form is that of the
 * Polkadot Protocol Specification, Appendix A.2.2.
 */
module StatementLayout {
  import opened Common
  import opened Compact
  import opened StatementCodec

  /** The low byte of a number. */
  function Octet(x: int): byte { x % 256 }

  /** Compact form: the low two bits of the first byte say how many bytes there are. */
  function CompactLayout(n: nat): seq<byte> {
    if n < 64 then [Octet(4 * n)]
    else if n < 16384 then [Octet(4 * n + 1), Octet((4 * n + 1) / 0x100)]
    else [Octet(4 * n + 2), Octet((4 * n + 2) / 0x100), Octet((4 * n + 2) / 0x1_0000), Octet((4 * n + 2) / 0x100_0000)]
  }

  /** Eight bytes, the least significant first. */
  function U64Layout(v: int): seq<byte> {
    [Octet(v), Octet(v / 0x100), Octet(v / 0x1_0000), Octet(v / 0x100_0000),
     Octet(v / 0x1_0000_0000), Octet(v / 0x100_0000_0000), Octet(v / 0x1_0000_0000_0000), Octet(v / 0x100_0000_0000_0000)]
  }

  function ProofLayout(p: Proof): seq<byte> {
    match p
    case Sr25519(signature, signer) => [0] + signature + signer
    case Ed25519(signature, signer) => [1] + signature + signer
    case Ecdsa(signature, signer) => [2] + signature + signer
    case OnChain(who, blockHash, event) => [3] + who + blockHash + U64Layout(event)
  }

  function TopicsLayout(topics: seq<seq<byte>>): seq<byte> {
    (if |topics| > 0 then [4] + topics[0] else []) +
    (if |topics| > 1 then [5] + topics[1] else []) +
    (if |topics| > 2 then [6] + topics[2] else []) +
    (if |topics| > 3 then [7] + topics[3] else [])
  }

  /** How many fields a statement has. */
  function Present(s: Statement): nat {
    (if s.proof.Some? then 1 else 0) + (if s.decryptionKey.Some? then 1 else 0) + (if s.expiry.Some? then 1 else 0) +
    (if s.channel.Some? then 1 else 0) + |s.topics| + (if s.data.Some? then 1 else 0)
  }

  function HeaderLayout(s: Statement): seq<byte> {
    (if s.proof.Some? then [0] + ProofLayout(s.proof.value) else []) +
    (if s.decryptionKey.Some? then [1] + s.decryptionKey.value else []) +
    (if s.expiry.Some? then [2] + U64Layout(s.expiry.value) else []) +
    (if s.channel.Some? then [3] + s.channel.value else [])
  }

  function DataLayout(s: Statement): seq<byte> {
    if s.data.Some? then [8] + CompactLayout(|s.data.value|) + s.data.value else []
  }

  /** The whole statement: the number of its fields, then each of them behind its index. */
  function Layout(s: Statement): seq<byte> {
    CompactLayout(Present(s)) + HeaderLayout(s) + TopicsLayout(s.topics) + DataLayout(s)
  }

  // -- The parts ---------------------------------------------------------------------------------------

  lemma CompactBytes(n: nat)
    requires n < 0x4000_0000
    ensures EncodeCompact(n) == Some(CompactLayout(n))
  {
    hide EncodeCompact;
    if n < 0x40 {
      OneByteRoundTrip(n, []);
    } else if n < 0x4000 {
      TwoByteEncoding(n);
    } else {
      FourByteEncoding(n);
    }
  }

  /** Byte i of a little-endian number is its i-th digit to the base 256. */
  lemma {:induction false} LittleEndianAt(value: nat, n: nat, i: nat)
    requires i < n
    ensures LittleEndian(value, n)[i] == value / Pow256(i) % 256
  {
    if i > 0 {
      LittleEndianAt(value / 256, n - 1, i - 1);
      DivideTwice(value, Pow256(i - 1));
    }
  }

  lemma DivideTwice(value: nat, p: nat)
    requires p > 0
    ensures value / 256 / p == value / (256 * p)
  {
    var q, r := value / 256 / p, value / 256 % p;
    assert value / 256 == p * q + r && 0 <= r < p;
    assert value == 256 * (p * q + r) + value % 256;
    assert 256 * (p * q) == (256 * p) * q;
    assert 0 <= 256 * r + value % 256 < 256 * p;
    Quotient(value, 256 * p, q, 256 * r + value % 256);
  }

  lemma {:induction false} Steps(d: nat, a: int, b: int)
    ensures a > b ==> d * a >= d * b + d
    decreases a - b
  {
    if a > b {
      Steps(d, a - 1, b);
      assert d * a == d * (a - 1) + d;
    }
  }

  lemma Quotient(value: int, d: nat, q: int, rest: nat)
    requires d > 0 && value == d * q + rest && rest < d
    ensures value / d == q
  {
    Steps(d, value / d, q);
    Steps(d, q, value / d);
  }

  lemma Powers256()
    ensures Pow256(0) == 1 && Pow256(1) == 0x100 && Pow256(2) == 0x1_0000 && Pow256(3) == 0x100_0000
    ensures Pow256(4) == 0x1_0000_0000 && Pow256(5) == 0x100_0000_0000
    ensures Pow256(6) == 0x1_0000_0000_0000 && Pow256(7) == 0x100_0000_0000_0000
  {
    assert Pow256(2) == 0x1_0000;
    assert Pow256(4) == 0x1_0000_0000;
    assert Pow256(6) == 0x1_0000_0000_0000;
  }

  /** Adding a multiple of 256 leaves the last digit, and adds to the rest. */
  lemma NextDigit(v: int, m: int, x: int)
    requires v == m + 256 * x
    ensures v % 256 == m % 256 && v / 256 == m / 256 + x
  {
  }

  lemma DigitByDigit(v: int)
    ensures v / 0x1_0000 == v / 0x100 / 256 && v / 0x100_0000 == v / 0x1_0000 / 256
    ensures v / 0x1_0000_0000 == v / 0x100_0000 / 256 && v / 0x100_0000_0000 == v / 0x1_0000_0000 / 256
    ensures v / 0x1_0000_0000_0000 == v / 0x100_0000_0000 / 256
    ensures v / 0x100_0000_0000_0000 == v / 0x1_0000_0000_0000 / 256
  {
  }

  /** Reducing a number modulo 2^64 leaves its low eight digits as they were. */
  lemma LowDigits(v: int)
    ensures U64Layout(v % 0x1_0000_0000_0000_0000) == U64Layout(v)
  {
    var m, k := v % 0x1_0000_0000_0000_0000, v / 0x1_0000_0000_0000_0000;
    DigitByDigit(v);
    DigitByDigit(m);
    NextDigit(v, m, 0x100_0000_0000_0000 * k);
    NextDigit(v / 0x100, m / 0x100, 0x1_0000_0000_0000 * k);
    NextDigit(v / 0x1_0000, m / 0x1_0000, 0x100_0000_0000 * k);
    NextDigit(v / 0x100_0000, m / 0x100_0000, 0x1_0000_0000 * k);
    NextDigit(v / 0x1_0000_0000, m / 0x1_0000_0000, 0x100_0000 * k);
    NextDigit(v / 0x100_0000_0000, m / 0x100_0000_0000, 0x1_0000 * k);
    NextDigit(v / 0x1_0000_0000_0000, m / 0x1_0000_0000_0000, 0x100 * k);
    NextDigit(v / 0x100_0000_0000_0000, m / 0x100_0000_0000_0000, k);
  }

  lemma LayoutAt(v: int, i: nat)
    requires i < 8
    ensures |U64Layout(v)| == 8 && U64Layout(v)[i] == v / Pow256(i) % 256
  {
    Powers256();
    hide Pow256;
  }

  lemma U64Bytes(v: int)
    ensures EncodeU64(v) == U64Layout(v)
  {
    hide LittleEndian;
    hide U64Layout;
    hide Pow256;
    var m := v % 0x1_0000_0000_0000_0000;
    LowDigits(v);
    LayoutAt(m, 0);
    forall i | 0 <= i < 8 ensures LittleEndian(m, 8)[i] == U64Layout(m)[i] {
      LittleEndianAt(m, 8, i);
      LayoutAt(m, i);
    }
    assert LittleEndian(m, 8) == U64Layout(m);
  }

  lemma ProofBytes(p: Proof)
    requires WellFormedProof(p)
    ensures EncodeProof(p) == Some(ProofLayout(p))
  {
    hide EncodeU64;
    hide EncodeOnChain;
    if p.OnChain? {
      EncodeOnChainLayout(p.who, p.blockHash, p.event);
      U64Bytes(p.event);
    }
  }

  // -- The whole -----------------------------------------------------------------------------------------

  lemma {:induction false} PrintAppend(a: seq<Field>, b: seq<Field>)
    requires AllPrintable(a) && AllPrintable(b)
    ensures AllPrintable(a + b) && PrintFields(a + b) == PrintFields(a) + PrintFields(b)
  {
    hide PrintField;
    if a == [] {
      assert a + b == b;
    } else {
      PrintAppend(a[1..], b);
      assert (a + b)[0] == a[0] && (a + b)[1..] == a[1..] + b;
    }
  }

  lemma PrintOne(f: Field)
    requires Printable(f)
    ensures AllPrintable([f]) && PrintFields([f]) == PrintField(f) && AllPrintable([]) && PrintFields([]) == []
  {
    hide PrintField;
    assert [f][1..] == [];
  }

  lemma HeaderBytes(s: Statement)
    requires s.proof.Some? ==> WellFormedProof(s.proof.value)
    ensures AllPrintable(Header(s))
    ensures PrintFields(Header(s)) == HeaderLayout(s)
  {
    hide EncodeU64;
    hide EncodeProof;
    hide U64Layout;
    hide ProofLayout;
    hide PrintFields;
    var a := if s.proof.Some? then [ProofField(s.proof.value)] else [];
    var b := if s.decryptionKey.Some? then [KeyField(s.decryptionKey.value)] else [];
    var d := if s.expiry.Some? then [ExpiryField(s.expiry.value)] else [];
    var e := if s.channel.Some? then [ChannelField(s.channel.value)] else [];
    if s.proof.Some? {
      ProofBytes(s.proof.value);
      PrintOne(ProofField(s.proof.value));
    }
    if s.expiry.Some? {
      U64Bytes(s.expiry.value);
      PrintOne(ExpiryField(s.expiry.value));
    }
    if s.decryptionKey.Some? {
      PrintOne(KeyField(s.decryptionKey.value));
    }
    if s.channel.Some? {
      PrintOne(ChannelField(s.channel.value));
    }
    PrintOne(KeyField([]));
    PrintAppend(a, b);
    PrintAppend(a + b, d);
    PrintAppend(a + b + d, e);
    assert Header(s) == a + b + d + e;
  }

  lemma TopicBytes(topics: seq<seq<byte>>)
    requires |topics| <= 4
    ensures AllPrintable(TopicFields(topics)) && PrintFields(TopicFields(topics)) == TopicsLayout(topics)
    decreases |topics|
  {
    var fs := TopicFields(topics);
    if topics != [] {
      var n := |topics| - 1;
      TopicBytes(topics[..n]);
      PrintOne(TopicField(n, topics[n]));
      PrintAppend(TopicFields(topics[..n]), [TopicField(n, topics[n])]);
      assert fs == TopicFields(topics[..n]) + [TopicField(n, topics[n])];
      TopicsSnoc(topics);
    }
  }

  lemma TopicsSnoc(topics: seq<seq<byte>>)
    requires 1 <= |topics| <= 4
    ensures var n := |topics| - 1; TopicsLayout(topics) == TopicsLayout(topics[..n]) + ([4 + n] + topics[n])
  {
    var n := |topics| - 1;
    assert forall i :: 0 <= i < n ==> topics[..n][i] == topics[i];
  }

  /** Every statement of well-formed parts is printed in exactly this layout. */
  lemma WireLayout(s: Statement)
    requires WellFormed(s)
    ensures EncodeStatement(s) == Ok(Layout(s))
  {
    hide EncodeCompact;
    hide EncodeProof;
    hide CompactLayout;
    hide HeaderLayout;
    hide TopicsLayout;
    hide DataLayout;
    hide PrintFields;
    hide Header;
    hide Trailer;
    hide TopicFields;
    hide FieldsOf;
    hide Present;
    WellFormedParts(s);
    HeaderBytes(s);
    TopicBytes(s.topics);
    TrailerBytes(s);
    PrintAppend(Header(s), TopicFields(s.topics));
    PrintAppend(Header(s) + TopicFields(s.topics), Trailer(s));
    FieldCount(s);
    AtMostNine(s);
    CompactBytes(Present(s));
    if s.data.Some? {
      CompactBytes(|s.data.value|);
    }
    Regroup(CompactLayout(Present(s)), HeaderLayout(s), TopicsLayout(s.topics), DataLayout(s));
    assert EncodeStatement(s) ==
      Ok(CompactLayout(Present(s)) + (HeaderLayout(s) + TopicsLayout(s.topics) + DataLayout(s)));
    assert CompactLayout(Present(s)) + (HeaderLayout(s) + TopicsLayout(s.topics) + DataLayout(s)) == Layout(s);
  }

  lemma AtMostNine(s: Statement)
    requires |s.topics| <= 4
    ensures Present(s) <= 9
  {
  }

  lemma WellFormedParts(s: Statement)
    requires WellFormed(s)
    ensures |s.topics| <= 4 && (s.proof.Some? ==> WellFormedProof(s.proof.value) && EncodeProof(s.proof.value).Some?)
    ensures s.data.Some? ==> |s.data.value| < 0x4000_0000
  {
    ProofAndDataListed(s);
    if s.proof.Some? {
      assert WellFormedField(ProofField(s.proof.value));
      WellFormedIsPrintable(ProofField(s.proof.value));
    }
    if s.data.Some? {
      assert WellFormedField(DataField(s.data.value));
    }
  }

  lemma TrailerBytes(s: Statement)
    requires s.data.Some? ==> |s.data.value| < 0x4000_0000
    ensures AllPrintable(Trailer(s))
    ensures PrintFields(Trailer(s)) == DataLayout(s)
  {
    hide EncodeCompact;
    if s.data.Some? {
      CompactBytes(|s.data.value|);
      PrintOne(DataField(s.data.value));
    }
  }

  lemma FieldCount(s: Statement)
    ensures |FieldsOf(s)| == Present(s) && FieldsOf(s) == Header(s) + TopicFields(s.topics) + Trailer(s)
  {
  }

  /** So every input that starts with a layout is decoded to the statement laid out. */
  lemma LayoutIsDecoded(s: Statement, rest: seq<byte>, beyond: seq<byte>)
    requires WellFormed(s)
    ensures DecodeStatement(Layout(s) + rest, beyond) == Ok(Decoded(s, |Layout(s)|, true))
  {
    hide DecodeStatement;
    hide EncodeStatement;
    hide Layout;
    WireLayout(s);
    ParserInvertsPrinter(s, rest, beyond);
  }

  /** Which statements are printed at all, and which error comes first otherwise. */
  lemma PrintedIff(s: Statement)
    ensures var fits := s.proof.Some? && s.proof.value.OnChain? ==>
        |s.proof.value.who| <= 72 && |s.proof.value.blockHash| <= 40;
      match EncodeStatement(s)
      case Ok(_) => fits && |s.topics| <= 4 && (s.data.Some? ==> |s.data.value| < 0x4000_0000)
      case Err(e) =>
        if !fits then e == BufferOverflow
        else if |s.topics| > 4 then e == TooManyTopics
        else s.data.Some? && |s.data.value| >= 0x4000_0000 && e == CompactTooLarge
  {
    hide EncodeCompact;
    hide FieldsOf;
    hide PrintFields;
    hide EncodeU64;
    if s.data.Some? {
      CompactBound(|s.data.value|);
    }
  }

  // -- Why an input is refused -----------------------------------------------------------------------

  function LastIndex(fs: seq<Field>, maxIdx: int): int { if fs == [] then maxIdx else Index(fs[|fs| - 1]) }

  function TopicsIn(fs: seq<Field>): nat {
    if fs == [] then 0 else (if fs[0].TopicField? then 1 else 0) + TopicsIn(fs[1..])
  }

  /** Fields printed in order are read; what follows them decides. */
  lemma {:induction false} PrefixRead(
      pre: seq<byte>, fs: seq<Field>, post: seq<byte>, m: nat, maxIdx: int, topics: nat, beyond: seq<byte>, e: CodecError)
    requires Ordered(fs, maxIdx, topics) && AllWellFormed(fs) && AllPrintable(fs) && m > 0
    requires ParseField(pre + PrintFields(fs) + post, |pre| + |PrintFields(fs)|, LastIndex(fs, maxIdx),
                        topics + TopicsIn(fs), beyond) == Err(e)
    ensures ParseFields(pre + PrintFields(fs) + post, |pre|, |fs| + m, maxIdx, topics, beyond) == Err(e)
    decreases |fs|
  {
    hide ParseField;
    hide PrintField;
    hide WellFormedField;
    hide Printable;
    if fs == [] {
      assert pre + [] + post == pre + post;
    } else {
      var f, pf, tail := fs[0], PrintField(fs[0]), PrintFields(fs[1..]);
      Regroup(pre, pf, tail, post);
      FieldRoundTrip(pre, f, tail + post, maxIdx, topics, beyond);
      assert LastIndex(fs, maxIdx) == LastIndex(fs[1..], Index(f));
      PrefixRead(pre + pf, fs[1..], post, m, Index(f), if f.TopicField? then topics + 1 else topics, beyond, e);
    }
  }

  /**
   * Why a field is refused: it is missing, not above the last index, above 8, a topic out of
   * turn, a proof without a known type, or data whose length is in big-integer mode.
   */
  ghost predicate Reason(next: seq<byte>, last: int, topics: nat, e: CodecError) {
    || (next == [] && e == UnknownField)
    || (next != [] && next[0] <= last && e == NotAscending)
    || (next != [] && next[0] > last && next[0] > 8 && e == UnknownField)
    || (next != [] && next[0] > last && 4 <= next[0] <= 7 && next[0] != 4 + topics && e == TopicGap)
    || (next != [] && next[0] > last && next[0] == 0 && (|next| == 1 || next[1] > 3) && e == UnknownProof)
    || (|next| > 1 && next[0] > last && next[0] == 8 && next[1] % 4 == 3 && e == BigCompact)
  }

  lemma ReasonIsGiven(pre: seq<byte>, next: seq<byte>, last: int, topics: nat, beyond: seq<byte>, e: CodecError)
    requires Reason(next, last, topics, e)
    ensures ParseField(pre + next, |pre|, last, topics, beyond) == Err(e)
  {
    hide DecodeCompact;
    hide ReadU64;
    var data := pre + next;
    assert forall i :: 0 <= i < |next| ==> data[|pre| + i] == next[i];
    if |next| > 1 && next[0] == 8 && next[1] % 4 == 3 {
      var rest := From(data, |pre| + 1);
      assert rest[0] == next[1];
      DecodeIsUnsigned(rest);
    }
  }

  /**
   * An input that starts with the printed fields of a statement, but announces more of them, is
   * refused with the reason its next bytes give.
   */
  lemma RefusedWithReason(fs: seq<Field>, n: nat, next: seq<byte>, beyond: seq<byte>, e: CodecError)
    requires Ordered(fs, -1, 0) && AllWellFormed(fs) && AllPrintable(fs) && |fs| < n < 64
    requires Reason(next, LastIndex(fs, -1), TopicsIn(fs), e)
    ensures DecodeStatement([4 * n] + PrintFields(fs) + next, beyond) == Err(e)
  {
    hide ParseField;
    hide ParseFields;
    hide PrintFields;
    hide Reason;
    hide EncodeCompact;
    hide DecodeCompact;
    var pre: seq<byte> := [4 * n];
    ReasonIsGiven(pre + PrintFields(fs), next, LastIndex(fs, -1), TopicsIn(fs), beyond, e);
    PrefixRead(pre, fs, next, n - |fs|, -1, 0, beyond, e);
    OneByteRoundTrip(n, PrintFields(fs) + next);
    assert pre + (PrintFields(fs) + next) == pre + PrintFields(fs) + next;
  }
}
