/**
 * The hand-written printer and parser of statements.
 *
 * The specification goes through an ordered list of fields: a statement is the same
 * thing as such a list (`FieldsOf` and `Assemble` are inverse), and a list is the same
 * thing as its bytes (`PrintFields` and `ParseFields` are inverse). The two methods at
 * the end do what the source does, with cursor and arrays, and are proved to compute
 * `EncodeStatement` and `DecodeStatement`.
 */
module StatementCodec {
  import opened Common
  import opened Compact

  datatype Proof =
    | Sr25519(signature: seq<byte>, signer: seq<byte>)
    | Ed25519(signature: seq<byte>, signer: seq<byte>)
    | Ecdsa(signature: seq<byte>, signer: seq<byte>)
    | OnChain(who: seq<byte>, blockHash: seq<byte>, event: int)

  datatype Statement = Statement(
    proof: Option<Proof>,
    decryptionKey: Option<seq<byte>>,
    expiry: Option<int>,
    channel: Option<seq<byte>>,
    topics: seq<seq<byte>>,
    data: Option<seq<byte>>)

  const EmptyStatement := Statement(None, None, None, None, [], None)

  datatype CodecError =
    | TooManyTopics | CompactTooLarge | BufferOverflow
    | NotAscending | UnknownField | UnknownProof | TopicGap | BigCompact | OutOfRange

  datatype Field =
    | ProofField(proof: Proof)
    | KeyField(bytes: seq<byte>)
    | ExpiryField(value: int)
    | ChannelField(bytes: seq<byte>)
    | TopicField(position: nat, bytes: seq<byte>)
    | DataField(bytes: seq<byte>)

  /** The variant index that precedes the field on the wire. */
  function Index(f: Field): nat {
    match f
    case ProofField(_) => 0
    case KeyField(_) => 1
    case ExpiryField(_) => 2
    case ChannelField(_) => 3
    case TopicField(i, _) => 4 + i
    case DataField(_) => 8
  }

  // -- Statements as field lists -------------------------------------------------

  function TopicFields(topics: seq<seq<byte>>): seq<Field> {
    seq(|topics|, i requires 0 <= i < |topics| => TopicField(i, topics[i]))
  }

  /** The optional fields that precede the topics. */
  function Header(s: Statement): seq<Field> {
    (if s.proof.Some? then [ProofField(s.proof.value)] else []) +
    (if s.decryptionKey.Some? then [KeyField(s.decryptionKey.value)] else []) +
    (if s.expiry.Some? then [ExpiryField(s.expiry.value)] else []) +
    (if s.channel.Some? then [ChannelField(s.channel.value)] else [])
  }

  function Trailer(s: Statement): seq<Field> {
    if s.data.Some? then [DataField(s.data.value)] else []
  }

  /** The fields `encodeStatement` pushes, in its order. */
  function FieldsOf(s: Statement): seq<Field> {
    Header(s) + TopicFields(s.topics) + Trailer(s)
  }

  /** What one round of the decoding loop stores in the statement. */
  function Put(s: Statement, f: Field): Statement {
    match f
    case ProofField(p) => s.(proof := Some(p))
    case KeyField(b) => s.(decryptionKey := Some(b))
    case ExpiryField(v) => s.(expiry := Some(v))
    case ChannelField(b) => s.(channel := Some(b))
    case TopicField(_, b) => s.(topics := s.topics + [b])
    case DataField(b) => s.(data := Some(b))
  }

  function PutAll(s: Statement, fs: seq<Field>): Statement
    decreases |fs|
  {
    if fs == [] then s else PutAll(Put(s, fs[0]), fs[1..])
  }

  function Assemble(fs: seq<Field>): Statement { PutAll(EmptyStatement, fs) }

  /** The order the decoder accepts after a field of index `maxIdx` and `topics` topics. */
  predicate Ordered(fs: seq<Field>, maxIdx: int, topics: nat) {
    fs == [] ||
    (&& Index(fs[0]) > maxIdx
     && (fs[0].TopicField? ==> fs[0].position == topics && topics < 4)
     && Ordered(fs[1..], Index(fs[0]), if fs[0].TopicField? then topics + 1 else topics))
  }

  lemma {:induction false} PutAllAppend(s: Statement, fs: seq<Field>, f: Field)
    ensures PutAll(s, fs + [f]) == Put(PutAll(s, fs), f)
    decreases |fs|
  {
    if fs == [] {
      assert PutAll(s, [f]) == PutAll(Put(s, f), []);
    } else {
      PutAllAppend(Put(s, fs[0]), fs[1..], f);
      assert (fs + [f])[1..] == fs[1..] + [f];
    }
  }

  lemma HeaderExtended(s: Statement, f: Field, maxIdx: int)
    requires Within(s, maxIdx) && maxIdx < Index(f) < 4
    ensures Header(Put(s, f)) == Header(s) + [f]
  {
  }

  /** Adding a field later than everything stored appends it to the field list. */
  lemma PutExtendsFields(s: Statement, f: Field, maxIdx: int)
    requires Within(s, maxIdx) && Index(f) > maxIdx
    requires f.TopicField? ==> f.position == |s.topics| && |s.topics| < 4
    ensures FieldsOf(Put(s, f)) == FieldsOf(s) + [f]
    ensures Within(Put(s, f), Index(f))
  {
    if f.TopicField? || f.DataField? {
      LateFieldAppends(s, f, maxIdx);
    } else {
      assert FieldsOf(s) == Header(s) && FieldsOf(Put(s, f)) == Header(Put(s, f));
      HeaderExtended(s, f, maxIdx);
    }
  }

  lemma LateFieldAppends(s: Statement, f: Field, maxIdx: int)
    requires Within(s, maxIdx) && Index(f) > maxIdx
    requires (f.TopicField? && f.position == |s.topics| < 4) || f.DataField?
    ensures FieldsOf(Put(s, f)) == FieldsOf(s) + [f]
  {
    HeaderKept(s, f);
    hide Header;
    assert Trailer(s) == [];
    if f.TopicField? {
      assert TopicFields(s.topics + [f.bytes]) == TopicFields(s.topics) + [f];
      assert Trailer(Put(s, f)) == [];
    } else {
      assert Trailer(Put(s, f)) == [f];
    }
  }

  lemma HeaderKept(s: Statement, f: Field)
    requires f.TopicField? || f.DataField?
    ensures Header(Put(s, f)) == Header(s)
  {
  }

  /** Every field of the statement has an index of at most `maxIdx`. */
  predicate Within(s: Statement, maxIdx: int) {
    && (s.proof.Some? ==> 0 <= maxIdx)
    && (s.decryptionKey.Some? ==> 1 <= maxIdx)
    && (s.expiry.Some? ==> 2 <= maxIdx)
    && (s.channel.Some? ==> 3 <= maxIdx)
    && (|s.topics| > 0 ==> 3 + |s.topics| <= maxIdx)
    && (s.data.Some? ==> 8 <= maxIdx)
  }

  /** Ordered field lists are exactly the field lists of statements. */
  lemma {:induction false} FieldsOfAssemble(s: Statement, fs: seq<Field>, maxIdx: int)
    requires Within(s, maxIdx) && Ordered(fs, maxIdx, |s.topics|)
    ensures FieldsOf(PutAll(s, fs)) == FieldsOf(s) + fs
    decreases |fs|
  {
    hide FieldsOf;
    hide Within;
    if fs != [] {
      PutExtendsFields(s, fs[0], maxIdx);
      FieldsOfAssemble(Put(s, fs[0]), fs[1..], Index(fs[0]));
      assert FieldsOf(s) + fs == FieldsOf(s) + [fs[0]] + fs[1..];
    }
  }

  lemma {:induction false} OrderedAppend(s: Statement, fs: seq<Field>, f: Field, maxIdx: int)
    requires Ordered(fs, maxIdx, |s.topics|)
    requires Index(f) > if fs == [] then maxIdx else Index(fs[|fs| - 1])
    requires f.TopicField? ==> f.position == |PutAll(s, fs).topics| < 4
    ensures Ordered(fs + [f], maxIdx, |s.topics|)
    decreases |fs|
  {
    if fs != [] {
      assert (fs + [f])[1..] == fs[1..] + [f];
      OrderedAppend(Put(s, fs[0]), fs[1..], f, Index(fs[0]));
    }
  }

  /** The statement's field list is in decoding order, and assembling it gives the statement back. */
  predicate Listed(s: Statement) {
    Ordered(FieldsOf(s), -1, 0) && Assemble(FieldsOf(s)) == s
  }

  lemma ListedPut(s: Statement, f: Field, maxIdx: int)
    requires Listed(s) && Within(s, maxIdx) && Index(f) > maxIdx >= -1
    requires f.TopicField? ==> f.position == |s.topics| < 4
    ensures Listed(Put(s, f)) && Within(Put(s, f), Index(f))
  {
    PutExtendsFields(s, f, maxIdx);
    PutAllAppend(EmptyStatement, FieldsOf(s), f);
    OrderedAppend(EmptyStatement, FieldsOf(s), f, -1);
  }

  lemma ListedHeader(s: Statement)
    requires s.topics == [] && s.data.None?
    ensures Listed(s) && Within(s, 3)
  {
    var t := EmptyStatement;
    assert Listed(t);
    hide Listed;
    if s.proof.Some? {
      ListedPut(t, ProofField(s.proof.value), -1);
    }
    t := t.(proof := s.proof);
    if s.decryptionKey.Some? {
      ListedPut(t, KeyField(s.decryptionKey.value), 0);
    }
    t := t.(decryptionKey := s.decryptionKey);
    if s.expiry.Some? {
      ListedPut(t, ExpiryField(s.expiry.value), 1);
    }
    t := t.(expiry := s.expiry);
    if s.channel.Some? {
      ListedPut(t, ChannelField(s.channel.value), 2);
    }
    assert t.(channel := s.channel) == s;
  }

  lemma {:induction false} ListedTopics(s: Statement, n: nat)
    requires n <= |s.topics| <= 4 && s.data.None?
    ensures Listed(s.(topics := s.topics[..n])) && Within(s.(topics := s.topics[..n]), 3 + n)
  {
    hide Listed;
    if n > 0 {
      ListedTopics(s, n - 1);
      ListedPut(s.(topics := s.topics[..n - 1]), TopicField(n - 1, s.topics[n - 1]), 2 + n);
      assert s.topics[..n - 1] + [s.topics[n - 1]] == s.topics[..n];
    } else {
      ListedHeader(s.(topics := s.topics[..0]));
    }
  }

  /** Statements of at most four topics and ordered field lists are the same thing. */
  lemma AssembleFieldsOf(s: Statement)
    requires |s.topics| <= 4
    ensures Listed(s)
  {
    var t := s.(data := None);
    ListedTopics(t, |s.topics|);
    assert t == t.(topics := t.topics[..|s.topics|]);
    if s.data.Some? {
      ListedPut(t, DataField(s.data.value), 7);
    }
  }

  // -- Printing ------------------------------------------------------------------

  /** `out.set(part, offset)` on a fixed-size buffer; `None` is its range error. */
  function Overlay(buffer: seq<byte>, offset: nat, part: seq<byte>): (r: Option<seq<byte>>)
    ensures r.Some? <==> offset + |part| <= |buffer|
    ensures r.Some? ==> |r.value| == |buffer|
  {
    if offset + |part| <= |buffer| then
      Some(buffer[..offset] + part + buffer[offset + |part|..])
    else
      None
  }

  function Zeros(n: nat): seq<byte> { seq(n, _ => 0) }

  /** The on-chain proof fills a 73-byte buffer at fixed offsets. */
  function EncodeOnChain(who: seq<byte>, blockHash: seq<byte>, event: int): Option<seq<byte>> {
    var buffer := [3] + Zeros(72);
    var withWho := Overlay(buffer, 1, who);
    if withWho.None? then None
    else
      var withHash := Overlay(withWho.value, 33, blockHash);
      if withHash.None? then None else Overlay(withHash.value, 65, EncodeU64(event))
  }

  function EncodeProof(p: Proof): Option<seq<byte>> {
    match p
    case Sr25519(signature, signer) => Some([0] + signature + signer)
    case Ed25519(signature, signer) => Some([1] + signature + signer)
    case Ecdsa(signature, signer) => Some([2] + signature + signer)
    case OnChain(who, blockHash, event) => EncodeOnChain(who, blockHash, event)
  }

  predicate Printable(f: Field) {
    match f
    case ProofField(p) => EncodeProof(p).Some?
    case TopicField(i, _) => i < 4
    case DataField(b) => |b| < 0x4000_0000
    case _ => true
  }

  predicate AllPrintable(fs: seq<Field>) { forall f <- fs :: Printable(f) }

  function FieldBody(f: Field): seq<byte>
    requires Printable(f)
  {
    match f
    case ProofField(p) => EncodeProof(p).value
    case ExpiryField(v) => EncodeU64(v)
    case DataField(b) => EncodeCompact(|b|).value + b
    case KeyField(b) => b
    case ChannelField(b) => b
    case TopicField(_, b) => b
  }

  function PrintField(f: Field): seq<byte>
    requires Printable(f)
  {
    [Index(f)] + FieldBody(f)
  }

  function PrintFields(fs: seq<Field>): seq<byte>
    requires AllPrintable(fs)
  {
    if fs == [] then [] else PrintField(fs[0]) + PrintFields(fs[1..])
  }

  /** Field values in the sizes the wire format fixes. */
  predicate WellFormedProof(p: Proof) {
    match p
    case Sr25519(signature, signer) => |signature| == 64 && |signer| == 32
    case Ed25519(signature, signer) => |signature| == 64 && |signer| == 32
    case Ecdsa(signature, signer) => |signature| == 65 && |signer| == 33
    case OnChain(who, blockHash, event) =>
      |who| == 32 && |blockHash| == 32 && 0 <= event < 0x1_0000_0000_0000_0000
  }

  predicate WellFormedField(f: Field) {
    match f
    case ProofField(p) => WellFormedProof(p)
    case ExpiryField(v) => 0 <= v < 0x1_0000_0000_0000_0000
    case DataField(b) => |b| < 0x4000_0000
    case KeyField(b) => |b| == 32
    case ChannelField(b) => |b| == 32
    case TopicField(i, b) => i < 4 && |b| == 32
  }

  predicate WellFormed(s: Statement) {
    |s.topics| <= 4 && forall f <- FieldsOf(s) :: WellFormedField(f)
  }

  lemma OverlayGap(filled: seq<byte>, gap: seq<byte>, part: seq<byte>)
    requires |part| <= |gap|
    ensures Overlay(filled + gap, |filled|, part) == Some(filled + part + gap[|part|..])
  {
  }

  lemma EncodeOnChainLayout(who: seq<byte>, blockHash: seq<byte>, event: int)
    requires |who| == 32 && |blockHash| == 32
    ensures EncodeOnChain(who, blockHash, event) == Some([3] + who + blockHash + EncodeU64(event))
  {
    var zeros := Zeros(72);
    OverlayGap([3], zeros, who);
    OverlayGap([3] + who, zeros[32..], blockHash);
    OverlayGap([3] + who + blockHash, zeros[32..][32..], EncodeU64(event));
    var full := [3] + who + blockHash + EncodeU64(event);
    assert full + zeros[32..][32..][8..] == full;
  }

  lemma WellFormedIsPrintable(f: Field)
    requires WellFormedField(f)
    ensures Printable(f)
  {
    if f.ProofField? && f.proof.OnChain? {
      EncodeOnChainLayout(f.proof.who, f.proof.blockHash, f.proof.event);
    }
  }

  /** Errors in the order in which the printer meets them. */
  function EncodeStatement(s: Statement): Result<seq<byte>, CodecError> {
    if s.proof.Some? && EncodeProof(s.proof.value).None? then Err(BufferOverflow)
    else if |s.topics| > 4 then Err(TooManyTopics)
    else if s.data.Some? && EncodeCompact(|s.data.value|).None? then Err(CompactTooLarge)
    else Ok(EncodeCompact(|FieldsOf(s)|).value + PrintFields(FieldsOf(s)))
  }

  // -- Parsing -------------------------------------------------------------------

  /** A field, the cursor after it, and whether its compact (if any) was minimal. */
  datatype Parsed = Parsed(field: Field, next: nat, minimal: bool)

  datatype ParsedFields = ParsedFields(fields: seq<Field>, next: nat, minimal: bool)

  datatype Decoded = Decoded(statement: Statement, next: nat, minimal: bool)

  /** What is left of the input at a cursor that may have run past the end. */
  function From(data: seq<byte>, offset: nat): seq<byte> { data[Min(offset, |data|)..] }

  /**
   * The bytes of the input may be a view into a larger buffer: `beyond` is what that buffer
   * holds after them. Only a u64 is read from the buffer itself.
   */
  function ReadU64(data: seq<byte>, o: nat, beyond: seq<byte>): Option<nat> {
    var buffer := data + beyond;
    if o + 8 > |buffer| then None else Some(FromLittleEndian(buffer[o..o + 8]))
  }

  lemma ReadWithin(data: seq<byte>, o: nat, beyond: seq<byte>)
    requires o + 8 <= |data|
    ensures ReadU64(data, o, beyond) == Some(FromLittleEndian(Slice(data, o, 8)))
  {
    assert (data + beyond)[o..o + 8] == Slice(data, o, 8);
  }

  function ParseProof(data: seq<byte>, o: nat, beyond: seq<byte>): Result<Parsed, CodecError> {
    if o >= |data| then Err(UnknownProof)
    else
      match data[o]
      case 0 => Ok(Parsed(ProofField(Sr25519(Slice(data, o + 1, 64), Slice(data, o + 65, 32))), o + 97, true))
      case 1 => Ok(Parsed(ProofField(Ed25519(Slice(data, o + 1, 64), Slice(data, o + 65, 32))), o + 97, true))
      case 2 => Ok(Parsed(ProofField(Ecdsa(Slice(data, o + 1, 65), Slice(data, o + 66, 33))), o + 99, true))
      case 3 =>
        (match ReadU64(data, o + 65, beyond)
         case None => Err(OutOfRange)
         case Some(event) =>
           Ok(Parsed(ProofField(OnChain(Slice(data, o + 1, 32), Slice(data, o + 33, 32), event)), o + 73, true)))
      case _ => Err(UnknownProof)
  }

  /** One round of the decoding loop, with the cursor on the variant index. */
  function ParseField(data: seq<byte>, o: nat, maxIdx: int, topics: nat, beyond: seq<byte>): Result<Parsed, CodecError> {
    if o >= |data| then Err(UnknownField)
    else if data[o] <= maxIdx then Err(NotAscending)
    else
      match data[o]
      case 0 => ParseProof(data, o + 1, beyond)
      case 1 => Ok(Parsed(KeyField(Slice(data, o + 1, 32)), o + 33, true))
      case 2 =>
        (match ReadU64(data, o + 1, beyond)
         case None => Err(OutOfRange)
         case Some(v) => Ok(Parsed(ExpiryField(v), o + 9, true)))
      case 3 => Ok(Parsed(ChannelField(Slice(data, o + 1, 32)), o + 33, true))
      case 8 =>
        (match DecodeCompact(From(data, o + 1))
         case None => Err(BigCompact)
         case Some((length, used)) =>
           Ok(Parsed(DataField(Slice(data, o + 1 + used, length)), o + 1 + used + length,
                     used == CompactSize(length))))
      case idx =>
        if idx > 8 then Err(UnknownField)
        else if idx != 4 + topics then Err(TopicGap)
        else Ok(Parsed(TopicField(topics, Slice(data, o + 1, 32)), o + 33, true))
  }

  function ParseFields(data: seq<byte>, o: nat, n: nat, maxIdx: int, topics: nat, beyond: seq<byte>)
    : Result<ParsedFields, CodecError>
    decreases n
  {
    if n == 0 then Ok(ParsedFields([], o, true))
    else
      match ParseField(data, o, maxIdx, topics, beyond)
      case Err(e) => Err(e)
      case Ok(Parsed(f, next, minimal)) =>
        match ParseFields(data, next, n - 1, Index(f), if f.TopicField? then topics + 1 else topics, beyond)
        case Err(e) => Err(e)
        case Ok(tail) => Ok(ParsedFields([f] + tail.fields, tail.next, minimal && tail.minimal))
  }

  function DecodeStatement(data: seq<byte>, beyond: seq<byte>): Result<Decoded, CodecError> {
    match DecodeCompact(data)
    case None => Err(BigCompact)
    case Some((count, used)) =>
      match ParseFields(data, used, count, -1, 0, beyond)
      case Err(e) => Err(e)
      case Ok(r) => Ok(Decoded(Assemble(r.fields), r.next, r.minimal && used == CompactSize(count)))
  }

  // -- The parser inverts the printer --------------------------------------------

  lemma SliceMiddle(pre: seq<byte>, middle: seq<byte>, post: seq<byte>)
    ensures Slice(pre + middle + post, |pre|, |middle|) == middle
  {
  }

  lemma ProofRoundTrip(pre: seq<byte>, p: Proof, post: seq<byte>, beyond: seq<byte>)
    requires WellFormedProof(p)
    ensures EncodeProof(p).Some?
    ensures ParseProof(pre + EncodeProof(p).value + post, |pre|, beyond)
         == Ok(Parsed(ProofField(p), |pre| + |EncodeProof(p).value|, true))
  {
    if p.OnChain? {
      OnChainRoundTrip(pre, p, post, beyond);
    } else {
      var tag: seq<byte> := [if p.Sr25519? then 0 else if p.Ed25519? then 1 else 2];
      assert EncodeProof(p) == Some(tag + p.signature + p.signer);
      assert pre + EncodeProof(p).value + post == (pre + tag) + p.signature + (p.signer + post)
          == (pre + tag + p.signature) + p.signer + post;
      SliceMiddle(pre + tag, p.signature, p.signer + post);
      SliceMiddle(pre + tag + p.signature, p.signer, post);
    }
  }

  lemma OnChainRoundTrip(pre: seq<byte>, p: Proof, post: seq<byte>, beyond: seq<byte>)
    requires p.OnChain? && WellFormedProof(p)
    ensures EncodeProof(p).Some?
    ensures ParseProof(pre + EncodeProof(p).value + post, |pre|, beyond) == Ok(Parsed(ProofField(p), |pre| + 73, true))
    ensures |EncodeProof(p).value| == 73
  {
    hide EncodeU64;
    hide EncodeOnChain;
    hide ReadU64;
    hide FromLittleEndian;
    EncodeOnChainLayout(p.who, p.blockHash, p.event);
    var event := EncodeU64(p.event);
    U64RoundTrip(p.event, event);
    var data := pre + EncodeProof(p).value + post;
    var head := pre + [3];
    assert data == head + p.who + (p.blockHash + event + post)
        == (head + p.who) + p.blockHash + (event + post)
        == (head + p.who + p.blockHash) + event + post;
    SliceMiddle(head, p.who, p.blockHash + event + post);
    SliceMiddle(head + p.who, p.blockHash, event + post);
    SliceMiddle(head + p.who + p.blockHash, event, post);
    ReadWithin(data, |pre| + 65, beyond);
  }

  lemma DataRoundTrip(pre: seq<byte>, b: seq<byte>, post: seq<byte>)
    requires |b| < 0x4000_0000
    ensures EncodeCompact(|b|).Some?
    ensures var data := pre + (EncodeCompact(|b|).value + b) + post; var used := CompactSize(|b|);
      && DecodeCompact(From(data, |pre|)) == Some((|b|, used))
      && Slice(data, |pre| + used, |b|) == b
      && |EncodeCompact(|b|).value| == used
  {
    hide EncodeCompact;
    hide DecodeCompact;
    CompactRoundTrip(|b|, b + post);
    var length := EncodeCompact(|b|).value;
    var data := pre + (length + b) + post;
    assert From(data, |pre|) == length + (b + post);
    assert data == (pre + length) + b + post;
    SliceMiddle(pre + length, b, post);
  }

  lemma FieldRoundTrip(pre: seq<byte>, f: Field, post: seq<byte>, maxIdx: int, topics: nat, beyond: seq<byte>)
    requires WellFormedField(f) && Printable(f) && Index(f) > maxIdx
    requires f.TopicField? ==> f.position == topics
    ensures ParseField(pre + PrintField(f) + post, |pre|, maxIdx, topics, beyond)
         == Ok(Parsed(f, |pre| + |PrintField(f)|, true))
  {
    hide DecodeCompact;
    hide EncodeCompact;
    hide ParseProof;
    hide EncodeProof;
    hide EncodeU64;
    hide ReadU64;
    var pre', body := pre + [Index(f)], FieldBody(f);
    var data := pre + PrintField(f) + post;
    assert data == pre' + body + post;
    assert |data| > |pre| && data[|pre|] == Index(f);
    SliceMiddle(pre', body, post);
    match f
    case ProofField(p) => ProofRoundTrip(pre', p, post, beyond);
    case ExpiryField(v) =>
      ReadWithin(data, |pre| + 1, beyond);
      U64RoundTrip(v, body);
    case DataField(b) => DataRoundTrip(pre', b, post);
    case _ =>
  }

  lemma Regroup(a: seq<byte>, b: seq<byte>, c: seq<byte>, d: seq<byte>)
    ensures a + (b + c) + d == a + b + (c + d) == (a + b) + c + d
  {
  }

  lemma ParseFieldsOf(
      data: seq<byte>, o: nat, maxIdx: int, topics: nat, f: Field, next: nat,
      tail: seq<Field>, end: nat, beyond: seq<byte>)
    requires ParseField(data, o, maxIdx, topics, beyond) == Ok(Parsed(f, next, true))
    requires ParseFields(data, next, |tail|, Index(f), if f.TopicField? then topics + 1 else topics, beyond)
      == Ok(ParsedFields(tail, end, true))
    ensures ParseFields(data, o, |tail| + 1, maxIdx, topics, beyond) == Ok(ParsedFields([f] + tail, end, true))
  {
    hide ParseField;
  }

  lemma {:induction false} FieldsRoundTrip(
      pre: seq<byte>, fs: seq<Field>, post: seq<byte>, maxIdx: int, topics: nat, beyond: seq<byte>)
    requires Ordered(fs, maxIdx, topics)
    requires forall f <- fs :: WellFormedField(f) && Printable(f)
    ensures ParseFields(pre + PrintFields(fs) + post, |pre|, |fs|, maxIdx, topics, beyond)
         == Ok(ParsedFields(fs, |pre| + |PrintFields(fs)|, true))
    decreases |fs|
  {
    hide ParseField;
    hide PrintField;
    hide WellFormedField;
    hide Printable;
    hide ParseFields;
    if fs != [] {
      var f, pf, tail := fs[0], PrintField(fs[0]), PrintFields(fs[1..]);
      var data := pre + PrintFields(fs) + post;
      Regroup(pre, pf, tail, post);
      FieldRoundTrip(pre, f, tail + post, maxIdx, topics, beyond);
      FieldsRoundTrip(pre + pf, fs[1..], post, Index(f), if f.TopicField? then topics + 1 else topics, beyond);
      ParseFieldsOf(data, |pre|, maxIdx, topics, f, |pre + pf|, fs[1..], |pre + pf| + |tail|, beyond);
      assert [f] + fs[1..] == fs;
    } else {
      NoFields(pre, post, maxIdx, topics, beyond);
    }
  }

  lemma NoFields(pre: seq<byte>, post: seq<byte>, maxIdx: int, topics: nat, beyond: seq<byte>)
    ensures ParseFields(pre + [] + post, |pre|, 0, maxIdx, topics, beyond) == Ok(ParsedFields([], |pre|, true))
  {
  }

  lemma ProofAndDataListed(s: Statement)
    ensures s.proof.Some? ==> ProofField(s.proof.value) in FieldsOf(s)
    ensures s.data.Some? ==> DataField(s.data.value) in FieldsOf(s)
    ensures |FieldsOf(s)| <= 5 + |s.topics|
  {
    if s.data.Some? {
      assert FieldsOf(s)[|FieldsOf(s)| - 1] == DataField(s.data.value);
    }
  }

  lemma ListRoundTrip(fs: seq<Field>, rest: seq<byte>, beyond: seq<byte>)
    requires Ordered(fs, -1, 0) && |fs| < 64
    requires forall f <- fs :: WellFormedField(f) && Printable(f)
    ensures EncodeCompact(|fs|).Some?
    ensures var bytes := EncodeCompact(|fs|).value + PrintFields(fs);
      DecodeStatement(bytes + rest, beyond) == Ok(Decoded(Assemble(fs), |bytes|, true))
  {
    hide DecodeCompact;
    hide EncodeCompact;
    hide PrintFields;
    hide ParseFields;
    CompactRoundTrip(|fs|, PrintFields(fs) + rest);
    var length := EncodeCompact(|fs|).value;
    FieldsRoundTrip(length, fs, rest, -1, 0, beyond);
    assert length + (PrintFields(fs) + rest) == length + PrintFields(fs) + rest;
  }

  /** A well-formed statement encodes, and decoding its encoding gives it back whatever bytes follow. */
  lemma ParserInvertsPrinter(s: Statement, rest: seq<byte>, beyond: seq<byte>)
    requires WellFormed(s)
    ensures EncodeStatement(s).Ok?
    ensures var bytes := EncodeStatement(s).value;
      DecodeStatement(bytes + rest, beyond) == Ok(Decoded(s, |bytes|, true))
  {
    forall f <- FieldsOf(s) ensures Printable(f) { WellFormedIsPrintable(f); }
    ProofAndDataListed(s);
    AssembleFieldsOf(s);
    hide FieldsOf;
    hide EncodeProof;
    hide PrintFields;
    hide DecodeStatement;
    if s.data.Some? {
      CompactRoundTrip(|s.data.value|, []);
      assert WellFormedField(DataField(s.data.value));
    }
    if s.proof.Some? {
      assert Printable(ProofField(s.proof.value));
    }
    ListRoundTrip(FieldsOf(s), rest, beyond);
  }

  // -- Canonical form ------------------------------------------------------------

  lemma Cut(data: seq<byte>, a: nat, b: nat, c: nat)
    requires a <= b <= c <= |data|
    ensures data[a..c] == data[a..b] + data[b..c]
  {
  }

  /** What an accepted field read within bounds says about the bytes it was read from. */
  lemma ProofCanonical(data: seq<byte>, o: nat, beyond: seq<byte>)
    requires ParseProof(data, o, beyond).Ok?
    ensures var r := ParseProof(data, o, beyond).value;
      && r.field.ProofField? && r.next > o && r.minimal
      && (r.next <= |data| ==> WellFormedProof(r.field.proof) && EncodeProof(r.field.proof) == Some(data[o..r.next]))
  {
    hide ReadU64;
    hide EncodeOnChain;
    var r := ParseProof(data, o, beyond).value;
    if r.next <= |data| {
      if r.field.proof.OnChain? {
        OnChainCanonical(data, o, beyond);
      } else {
        var n := if r.field.proof.Ecdsa? then 65 else 64;
        assert r.next == o + 1 + n + if r.field.proof.Ecdsa? then 33 else 32;
        Cut(data, o, o + 1 + n, r.next);
        Cut(data, o, o + 1, o + 1 + n);
        assert data[o..o + 1] == [data[o]];
        assert r.field.proof.signature == data[o + 1..o + 1 + n] && r.field.proof.signer == data[o + 1 + n..r.next];
      }
    }
  }

  lemma OnChainCanonical(data: seq<byte>, o: nat, beyond: seq<byte>)
    requires ParseProof(data, o, beyond).Ok?
    requires var r := ParseProof(data, o, beyond).value;
      r.field.ProofField? && r.field.proof.OnChain? && r.next <= |data|
    ensures var r := ParseProof(data, o, beyond).value;
      WellFormedProof(r.field.proof) && EncodeProof(r.field.proof) == Some(data[o..r.next])
  {
    hide ReadU64;
    hide EncodeOnChain;
    hide EncodeU64;
    hide FromLittleEndian;
    var r := ParseProof(data, o, beyond).value;
    var p := r.field.proof;
    ReadWithin(data, o + 65, beyond);
    U64RoundTrip(p.event, Slice(data, o + 65, 8));
    EncodeOnChainLayout(p.who, p.blockHash, p.event);
    Cut(data, o, o + 65, r.next);
    Cut(data, o, o + 33, o + 65);
    Cut(data, o, o + 1, o + 33);
    assert data[o..o + 1] == [3] && p.who == data[o + 1..o + 33] && p.blockHash == data[o + 33..o + 65];
    assert EncodeU64(p.event) == data[o + 65..o + 73];
  }

  lemma FieldShape(data: seq<byte>, o: nat, maxIdx: int, topics: nat, beyond: seq<byte>)
    requires ParseField(data, o, maxIdx, topics, beyond).Ok?
    ensures var Parsed(f, next, minimal) := ParseField(data, o, maxIdx, topics, beyond).value;
      && o < |data| && next > o && maxIdx < Index(f) == data[o] <= 8
      && (f.TopicField? ==> f.position == topics < 4)
  {
    hide DecodeCompact;
    hide ParseProof;
    hide ReadU64;
    if data[o] == 0 {
      ProofCanonical(data, o + 1, beyond);
    }
  }

  lemma FieldCanonical(data: seq<byte>, o: nat, maxIdx: int, topics: nat, beyond: seq<byte>)
    requires ParseField(data, o, maxIdx, topics, beyond).Ok?
    requires ParseField(data, o, maxIdx, topics, beyond).value.next <= |data|
    ensures var Parsed(f, next, minimal) := ParseField(data, o, maxIdx, topics, beyond).value;
      && next > o && WellFormedField(f) && Printable(f)
      && (minimal ==> PrintField(f) == data[o..next])
  {
    FieldShape(data, o, maxIdx, topics, beyond);
    WellFormedBody(data, o, maxIdx, topics, beyond);
    hide ParseField;
    hide FieldBody;
    var Parsed(f, next, minimal) := ParseField(data, o, maxIdx, topics, beyond).value;
    assert data[o..next] == [data[o]] + data[o + 1..next];
  }

  lemma FromWithin(data: seq<byte>, o: nat, n: nat)
    requires o + n <= |data|
    ensures n <= |From(data, o)| && From(data, o)[..n] == data[o..o + n]
  {
  }

  /** The data field, read in bounds: its minimal length and its bytes are what it was read from. */
  lemma DataCanonical(data: seq<byte>, o: nat)
    requires DecodeCompact(From(data, o)).Some?
    requires var (length, used) := DecodeCompact(From(data, o)).value; o + used + length <= |data|
    ensures var (length, used) := DecodeCompact(From(data, o)).value; var b := Slice(data, o + used, length);
      && |b| == length < 0x4000_0000
      && (used == CompactSize(length) ==> EncodeCompact(length) == Some(data[o..o + used]))
      && data[o..o + used] + b == data[o..o + used + length]
  {
    var (length, used) := DecodeCompact(From(data, o)).value;
    hide DecodeCompact;
    hide EncodeCompact;
    CompactCanonical(From(data, o));
    FromWithin(data, o, used);
    Cut(data, o, o + used, o + used + length);
    hide From;
  }

  lemma WellFormedBody(data: seq<byte>, o: nat, maxIdx: int, topics: nat, beyond: seq<byte>)
    requires ParseField(data, o, maxIdx, topics, beyond).Ok?
    requires ParseField(data, o, maxIdx, topics, beyond).value.next <= |data|
    ensures var Parsed(f, next, minimal) := ParseField(data, o, maxIdx, topics, beyond).value;
      && next > o && Index(f) == data[o]
      && WellFormedField(f) && Printable(f)
      && (minimal ==> FieldBody(f) == data[o + 1..next])
  {
    hide DecodeCompact;
    hide EncodeCompact;
    hide ParseProof;
    hide EncodeProof;
    hide EncodeU64;
    hide ReadU64;
    hide From;
    match data[o] {
      case 0 => ProofCanonical(data, o + 1, beyond);
      case 2 =>
        ReadWithin(data, o + 1, beyond);
        U64RoundTrip(0, Slice(data, o + 1, 8));
      case 8 => DataCanonical(data, o + 1);
      case _ =>
    }
  }

  /** Every accepted field list is ordered, so it has at most nine fields whatever count was declared. */
  lemma {:induction false} FieldsOrdered(data: seq<byte>, o: nat, n: nat, maxIdx: int, topics: nat, beyond: seq<byte>)
    requires ParseFields(data, o, n, maxIdx, topics, beyond).Ok? && -1 <= maxIdx <= 8
    ensures var r := ParseFields(data, o, n, maxIdx, topics, beyond).value;
      && Ordered(r.fields, maxIdx, topics) && |r.fields| == n <= 8 - maxIdx && r.next >= o
    decreases n
  {
    hide ParseField;
    if n > 0 {
      FieldShape(data, o, maxIdx, topics, beyond);
      var Parsed(f, next, _) := ParseField(data, o, maxIdx, topics, beyond).value;
      FieldsOrdered(data, next, n - 1, Index(f), if f.TopicField? then topics + 1 else topics, beyond);
    }
  }

  predicate AllWellFormed(fs: seq<Field>) {
    forall f <- fs :: WellFormedField(f)
  }

  lemma AllWellFormedCons(f: Field, fs: seq<Field>)
    requires WellFormedField(f) && Printable(f) && AllWellFormed(fs) && AllPrintable(fs)
    ensures AllWellFormed([f] + fs) && AllPrintable([f] + fs)
    ensures PrintFields([f] + fs) == PrintField(f) + PrintFields(fs)
  {
    hide PrintField;
    assert ([f] + fs)[1..] == fs;
  }

  lemma ParseFieldsCons(data: seq<byte>, o: nat, n: nat, maxIdx: int, topics: nat, r: ParsedFields, beyond: seq<byte>)
    returns (p: Parsed, tail: ParsedFields)
    requires n > 0 && ParseFields(data, o, n, maxIdx, topics, beyond) == Ok(r)
    ensures ParseField(data, o, maxIdx, topics, beyond) == Ok(p)
    ensures ParseFields(data, p.next, n - 1, Index(p.field), if p.field.TopicField? then topics + 1 else topics, beyond)
         == Ok(tail)
    ensures r == ParsedFields([p.field] + tail.fields, tail.next, p.minimal && tail.minimal)
  {
    hide ParseField;
    p := ParseField(data, o, maxIdx, topics, beyond).value;
    tail := ParseFields(data, p.next, n - 1, Index(p.field), if p.field.TopicField? then topics + 1 else topics, beyond).value;
  }

  lemma {:induction false} FieldsCanonical(
      data: seq<byte>, o: nat, n: nat, maxIdx: int, topics: nat, r: ParsedFields, beyond: seq<byte>)
    requires ParseFields(data, o, n, maxIdx, topics, beyond) == Ok(r) && -1 <= maxIdx <= 8
    requires r.next <= |data|
    ensures o <= r.next
    ensures AllWellFormed(r.fields) && AllPrintable(r.fields)
    ensures r.minimal ==> PrintFields(r.fields) == data[o..r.next]
    decreases n
  {
    if n > 0 {
      var p, tail := ParseFieldsCons(data, o, n, maxIdx, topics, r, beyond);
      var topics' := if p.field.TopicField? then topics + 1 else topics;
      FieldShape(data, o, maxIdx, topics, beyond);
      FieldsOrdered(data, p.next, n - 1, Index(p.field), topics', beyond);
      FieldCanonical(data, o, maxIdx, topics, beyond);
      FieldsCanonical(data, p.next, n - 1, Index(p.field), topics', tail, beyond);
      AllWellFormedCons(p.field, tail.fields);
      Cut(data, o, p.next, tail.next);
    }
  }

  /** Acceptance bounds the loop: no declared count above nine is ever accepted, and fields come in order. */
  lemma AcceptedIsOrdered(data: seq<byte>, beyond: seq<byte>)
    requires DecodeStatement(data, beyond).Ok?
    ensures var count := DecodeCompact(data).value.0; var s := DecodeStatement(data, beyond).value.statement;
      && count <= 9
      && Listed(s) && |s.topics| <= 4
      && |FieldsOf(s)| == count
  {
    var (count, used) := DecodeCompact(data).value;
    FieldsOrdered(data, used, count, -1, 0, beyond);
    var fs := ParseFields(data, used, count, -1, 0, beyond).value.fields;
    FieldsOfAssemble(EmptyStatement, fs, -1);
    assert FieldsOf(Assemble(fs)) == [] + fs == fs;
    TopicsAtMostFour(EmptyStatement, fs, -1);
  }

  lemma {:induction false} TopicsAtMostFour(s: Statement, fs: seq<Field>, maxIdx: int)
    requires Ordered(fs, maxIdx, |s.topics|) && |s.topics| <= 4
    ensures |PutAll(s, fs).topics| <= 4
    decreases |fs|
  {
    if fs != [] {
      TopicsAtMostFour(Put(s, fs[0]), fs[1..], Index(fs[0]));
    }
  }

  /** The bytes at the front of `data` are the encoding of `s`, which is well formed. */
  predicate StartsWithEncodingOf(data: seq<byte>, s: Statement) {
    WellFormed(s) && EncodeStatement(s).Ok? && EncodeStatement(s).value <= data
  }

  /**
   * Which accepted inputs are canonical: exactly those read in bounds with minimal
   * compacts, and then the bytes read are the encoding of the result.
   */
  lemma AcceptedIsCanonical(data: seq<byte>, beyond: seq<byte>)
    requires DecodeStatement(data, beyond).Ok?
    ensures var Decoded(s, next, minimal) := DecodeStatement(data, beyond).value;
      && (next <= |data| ==> WellFormed(s))
      && (StartsWithEncodingOf(data, s) <==> next <= |data| && minimal)
      && (next <= |data| && minimal ==> EncodeStatement(s) == Ok(data[..next]))
  {
    var Decoded(s, next, minimal) := DecodeStatement(data, beyond).value;
    if next <= |data| {
      InBounds(data, beyond);
    }
    if StartsWithEncodingOf(data, s) {
      var bytes := EncodeStatement(s).value;
      ParserInvertsPrinter(s, data[|bytes|..], beyond);
      assert bytes + data[|bytes|..] == data;
    }
  }

  lemma InBounds(data: seq<byte>, beyond: seq<byte>)
    requires DecodeStatement(data, beyond).Ok? && DecodeStatement(data, beyond).value.next <= |data|
    ensures var Decoded(s, next, minimal) := DecodeStatement(data, beyond).value;
      WellFormed(s) && (minimal ==> EncodeStatement(s) == Ok(data[..next]))
  {
    var Decoded(s, next, minimal) := DecodeStatement(data, beyond).value;
    var (count, used) := DecodeCompact(data).value;
    var r := ParseFields(data, used, count, -1, 0, beyond).value;
    hide PutAll;
    hide ParseFields;
    hide DecodeCompact;
    AcceptedIsOrdered(data, beyond);
    FieldsOrdered(data, used, count, -1, 0, beyond);
    FieldsCanonical(data, used, count, -1, 0, r, beyond);
    FieldsOfAssemble(EmptyStatement, r.fields, -1);
    assert FieldsOf(s) == [] + r.fields == r.fields;
    assert WellFormed(s);
    if minimal {
      MinimalInBounds(data, s, r, used);
    }
  }

  lemma MinimalInBounds(data: seq<byte>, s: Statement, r: ParsedFields, used: nat)
    requires WellFormed(s) && FieldsOf(s) == r.fields && AllPrintable(r.fields)
    requires DecodeCompact(data) == Some((|r.fields|, used)) && used == CompactSize(|r.fields|)
    requires used <= r.next <= |data| && PrintFields(r.fields) == data[used..r.next]
    ensures EncodeStatement(s) == Ok(data[..r.next])
  {
    ParserInvertsPrinter(s, [], []);
    CompactCanonical(data);
    assert data[..r.next] == data[..used] + data[used..r.next];
  }

  lemma EmptyInputAccepted()
    ensures DecodeStatement([], []) == Ok(Decoded(EmptyStatement, 1, true))
  {
    assert DecodeCompact([]) == Some((0, 1));
    assert ParseFields([], 1, 0, -1, 0, []) == Ok(ParsedFields([], 1, true));
    assert Assemble([]) == EmptyStatement;
  }

  lemma ShortChannelAccepted()
    ensures DecodeStatement([4, 3, 7], []) == Ok(Decoded(EmptyStatement.(channel := Some([7])), 34, true))
  {
    hide ReadU64;
    hide ParseProof;
    var data: seq<byte> := [4, 3, 7];
    var f := ChannelField([7]);
    assert DecodeCompact(data) == Some((1, 1));
    assert Slice(data, 2, 32) == [7];
    assert ParseField(data, 1, -1, 0, []) == Ok(Parsed(f, 34, true));
    assert ParseFields(data, 34, 0, 3, 0, []) == Ok(ParsedFields([], 34, true));
    assert [f] + [] == [f];
    assert ParseFields(data, 1, 1, -1, 0, []) == Ok(ParsedFields([f], 34, true));
    assert PutAll(EmptyStatement, [f]) == PutAll(Put(EmptyStatement, f), []);
  }

  /**
   * Inputs that end early are not always refused: reads past the end yield zeros or
   * short slices, so the empty input is the empty statement and a channel can be short.
   */
  lemma TruncatedInputAccepted()
    ensures DecodeStatement([], []) == Ok(Decoded(EmptyStatement, 1, true))
    ensures DecodeStatement([4, 3, 7], []) == Ok(Decoded(EmptyStatement.(channel := Some([7])), 34, true))
    ensures !WellFormed(EmptyStatement.(channel := Some([7])))
  {
    hide DecodeStatement;
    EmptyInputAccepted();
    ShortChannelAccepted();
    var s := EmptyStatement.(channel := Some([7]));
    assert FieldsOf(s) == [ChannelField([7])];
    assert ChannelField([7]) in FieldsOf(s);
  }

  /** A view that ends before its expiry takes the expiry from the buffer behind it. */
  lemma ExpiryBehindTheView(value: int)
    ensures DecodeStatement([4, 2], EncodeU64(value)) ==
      Ok(Decoded(EmptyStatement.(expiry := Some(value % 0x1_0000_0000_0000_0000)), 10, true))
  {
    var data: seq<byte> := [4, 2];
    var beyond := EncodeU64(value);
    U64RoundTrip(value, beyond);
    assert (data + beyond)[2..10] == beyond;
    hide EncodeU64;
    hide FromLittleEndian;
    var f := ExpiryField(value % 0x1_0000_0000_0000_0000);
    assert ParseField(data, 1, -1, 0, beyond) == Ok(Parsed(f, 10, true));
    assert ParseFields(data, 10, 0, 2, 0, beyond) == Ok(ParsedFields([], 10, true));
    assert [f] + [] == [f];
    assert ParseFields(data, 1, 1, -1, 0, beyond) == Ok(ParsedFields([f], 10, true));
    assert PutAll(EmptyStatement, [f]) == PutAll(Put(EmptyStatement, f), []);
  }

  // -- The loops of the source ---------------------------------------------------

  /** One output buffer, filled part by part. */
  method Concat(parts: seq<seq<byte>>) returns (out: array<byte>)
    ensures fresh(out) && out[..] == Flatten(parts)
  {
    var length := 0;
    for i := 0 to |parts|
      invariant length == |Flatten(parts[..i])|
    {
      FlattenAppend(parts[..i], parts[i]);
      assert parts[..i + 1] == parts[..i] + [parts[i]];
      length := length + |parts[i]|;
    }
    assert parts[..|parts|] == parts;
    out := new byte[length](_ => 0);
    var pos := 0;
    for i := 0 to |parts|
      invariant pos == |Flatten(parts[..i])| <= length
      invariant |Flatten(parts[..i])| + |Flatten(parts[i..])| == length
      invariant out[..pos] == Flatten(parts[..i])
    {
      FlattenAppend(parts[..i], parts[i]);
      assert parts[..i + 1] == parts[..i] + [parts[i]];
      assert parts[i..][0] == parts[i] && parts[i..][1..] == parts[i + 1..];
      ghost var done := out[..pos];
      forall j | 0 <= j < |parts[i]| {
        out[pos + j] := parts[i][j];
      }
      assert out[..pos + |parts[i]|] == done + parts[i];
      pos := pos + |parts[i]|;
    }
    assert out[..] == out[..pos];
  }

  /** The bytes the printer pushes for each field. */
  function FieldBytes(fs: seq<Field>): seq<seq<byte>>
    requires AllPrintable(fs)
  {
    seq(|fs|, i requires 0 <= i < |fs| => PrintField(fs[i]))
  }

  lemma {:induction false} PrintFieldsIsFlatten(fs: seq<Field>)
    requires AllPrintable(fs)
    ensures PrintFields(fs) == Flatten(FieldBytes(fs))
  {
    if fs != [] {
      PrintFieldsIsFlatten(fs[1..]);
      assert FieldBytes(fs)[1..] == FieldBytes(fs[1..]);
    }
  }

  lemma FieldBytesAppend(fs: seq<Field>, f: Field)
    requires AllPrintable(fs) && Printable(f)
    ensures AllPrintable(fs + [f]) && FieldBytes(fs + [f]) == FieldBytes(fs) + [PrintField(f)]
  {
  }

  /** The part of the printer before the topics; `None` is a proof that overflows its buffer. */
  method PrintHeader(s: Statement) returns (r: Option<seq<seq<byte>>>)
    ensures r.None? <==> s.proof.Some? && EncodeProof(s.proof.value).None?
    ensures r.Some? ==> AllPrintable(Header(s)) && r.value == FieldBytes(Header(s))
  {
    hide PrintField;
    hide EncodeProof;
    var fields: seq<seq<byte>> := [];
    ghost var listed: seq<Field> := [];
    if s.proof.Some? {
      var f := ProofField(s.proof.value);
      if EncodeProof(f.proof).None? { return None; }
      FieldBytesAppend(listed, f);
      fields, listed := fields + [PrintField(f)], listed + [f];
    }
    if s.decryptionKey.Some? {
      var f := KeyField(s.decryptionKey.value);
      FieldBytesAppend(listed, f);
      fields, listed := fields + [PrintField(f)], listed + [f];
    }
    if s.expiry.Some? {
      var f := ExpiryField(s.expiry.value);
      FieldBytesAppend(listed, f);
      fields, listed := fields + [PrintField(f)], listed + [f];
    }
    if s.channel.Some? {
      var f := ChannelField(s.channel.value);
      FieldBytesAppend(listed, f);
      fields, listed := fields + [PrintField(f)], listed + [f];
    }
    assert listed == Header(s);
    r := Some(fields);
  }

  method PrintStatement(s: Statement) returns (r: Result<seq<byte>, CodecError>)
    ensures r == EncodeStatement(s)
  {
    hide PrintField;
    hide EncodeProof;
    hide EncodeCompact;
    hide Header;
    var header := PrintHeader(s);
    if header.None? { return Err(BufferOverflow); }
    var fields := header.value;
    ghost var listed := Header(s);
    if |s.topics| > 4 { return Err(TooManyTopics); }
    for i := 0 to |s.topics|
      invariant AllPrintable(listed) && fields == FieldBytes(listed)
      invariant listed == Header(s) + TopicFields(s.topics)[..i]
    {
      var f := TopicField(i, s.topics[i]);
      FieldBytesAppend(listed, f);
      fields, listed := fields + [PrintField(f)], listed + [f];
    }
    if s.data.Some? {
      var f := DataField(s.data.value);
      if EncodeCompact(|f.bytes|).None? { return Err(CompactTooLarge); }
      CompactBound(|f.bytes|);
      FieldBytesAppend(listed, f);
      fields, listed := fields + [PrintField(f)], listed + [f];
    }
    assert listed == FieldsOf(s);
    FieldsOfCount(s);
    r := Prefixed(listed, fields);
  }

  lemma FieldsOfCount(s: Statement)
    ensures |FieldsOf(s)| <= 5 + |s.topics|
  {
  }

  /** The count in front of the pushed fields. */
  method Prefixed(ghost fs: seq<Field>, fields: seq<seq<byte>>) returns (r: Result<seq<byte>, CodecError>)
    requires AllPrintable(fs) && fields == FieldBytes(fs) && |fields| < 0x4000_0000
    ensures EncodeCompact(|fs|).Some? && r == Ok(EncodeCompact(|fs|).value + PrintFields(fs))
  {
    hide PrintField;
    PrintFieldsIsFlatten(fs);
    CompactBound(|fields|);
    hide EncodeCompact;
    var count := EncodeCompact(|fields|).value;
    var out := Concat([count] + fields);
    assert ([count] + fields)[1..] == fields;
    r := Ok(out[..]);
  }

  lemma CompactBound(value: nat)
    ensures EncodeCompact(value).Some? <==> value < 0x4000_0000
  {
  }

  /** What the loop will return, given what is left to parse and what is stored already. */
  function Outcome(r: Result<ParsedFields, CodecError>, s: Statement): Result<Statement, CodecError> {
    match r
    case Err(e) => Err(e)
    case Ok(parsed) => Ok(PutAll(s, parsed.fields))
  }

  method ScanProof(data: seq<byte>, start: nat, beyond: seq<byte>) returns (r: Result<(Proof, nat), CodecError>)
    ensures r == match ParseProof(data, start, beyond) case Err(e) => Err(e) case Ok(p) => Ok((p.field.proof, p.next))
  {
    hide ReadU64;
    var offset := start;
    if offset >= |data| { return Err(UnknownProof); }
    var proofIdx := data[offset];
    offset := offset + 1;
    match proofIdx {
      case 3 =>
        var who := Slice(data, offset, 32);
        offset := offset + 32;
        var blockHash := Slice(data, offset, 32);
        offset := offset + 32;
        var event := ReadU64(data, offset, beyond);
        if event.None? { return Err(OutOfRange); }
        offset := offset + 8;
        return Ok((OnChain(who, blockHash, event.value), offset));
      case _ =>
        if proofIdx > 3 { return Err(UnknownProof); }
        var sigLen, signerLen := if proofIdx == 2 then 65 else 64, if proofIdx == 2 then 33 else 32;
        var signature := Slice(data, offset, sigLen);
        offset := offset + sigLen;
        var signer := Slice(data, offset, signerLen);
        offset := offset + signerLen;
        return Ok((if proofIdx == 0 then Sr25519(signature, signer)
                   else if proofIdx == 1 then Ed25519(signature, signer)
                   else Ecdsa(signature, signer), offset));
    }
  }

  /** The part of a round after the order check, with the cursor past the variant index. */
  method ScanBody(data: seq<byte>, start: nat, fieldIdx: byte, topicCount: nat, statement: Statement, beyond: seq<byte>)
    returns (r: Result<(Statement, nat), CodecError>)
    requires 0 < start <= |data| && data[start - 1] == fieldIdx
    ensures r == match ParseField(data, start - 1, fieldIdx - 1, topicCount, beyond)
      case Err(e) => Err(e)
      case Ok(p) => Ok((Put(statement, p.field), p.next))
  {
    hide DecodeCompact;
    hide ReadU64;
    hide ParseProof;
    var offset := start;
    match fieldIdx {
      case 0 =>
        ProofShape(data, offset, beyond);
        var proof := ScanProof(data, offset, beyond);
        if proof.Err? { return Err(proof.error); }
        return Ok((statement.(proof := Some(proof.value.0)), proof.value.1));
      case 1 =>
        return Ok((statement.(decryptionKey := Some(Slice(data, offset, 32))), offset + 32));
      case 2 =>
        var expiry := ReadU64(data, offset, beyond);
        if expiry.None? { return Err(OutOfRange); }
        return Ok((statement.(expiry := expiry), offset + 8));
      case 3 =>
        return Ok((statement.(channel := Some(Slice(data, offset, 32))), offset + 32));
      case 8 =>
        var dataLength := DecodeCompact(From(data, offset));
        if dataLength.None? { return Err(BigCompact); }
        var (dataLen, dataLenBytes) := dataLength.value;
        offset := offset + dataLenBytes;
        return Ok((statement.(data := Some(Slice(data, offset, dataLen))), offset + dataLen));
      case _ =>
        if fieldIdx > 8 { return Err(UnknownField); }
        if fieldIdx != 4 + topicCount { return Err(TopicGap); }
        return Ok((statement.(topics := statement.topics + [Slice(data, offset, 32)]), offset + 32));
    }
  }

  lemma ProofShape(data: seq<byte>, o: nat, beyond: seq<byte>)
    ensures ParseProof(data, o, beyond).Ok? ==> ParseProof(data, o, beyond).value.field.ProofField?
  {
  }

  method ScanStatement(data: seq<byte>, beyond: seq<byte>) returns (r: Result<Statement, CodecError>)
    ensures r == match DecodeStatement(data, beyond) case Err(e) => Err(e) case Ok(d) => Ok(d.statement)
  {
    hide DecodeCompact;
    hide ParseProof;
    hide Slice;
    hide ReadU64;
    hide From;
    var length := DecodeCompact(data);
    if length.None? { return Err(BigCompact); }
    var (fieldCount, lenBytes) := length.value;
    ghost var result := Outcome(ParseFields(data, lenBytes, fieldCount, -1, 0, beyond), EmptyStatement);
    var offset: nat, topicCount: nat := lenBytes, 0;
    var maxIdx: int := -1;
    var statement := EmptyStatement;
    for i := 0 to fieldCount
      invariant result == Outcome(ParseFields(data, offset, fieldCount - i, maxIdx, topicCount, beyond), statement)
    {
      ghost var step := ParseField(data, offset, maxIdx, topicCount, beyond);
      if offset >= |data| { return Err(UnknownField); }
      var fieldIdx := data[offset];
      offset := offset + 1;
      if fieldIdx <= maxIdx { return Err(NotAscending); }
      assert step == ParseField(data, offset - 1, fieldIdx - 1, topicCount, beyond);
      if step.Ok? { FieldShape(data, offset - 1, maxIdx, topicCount, beyond); }
      hide ParseField;
      var body := ScanBody(data, offset, fieldIdx, topicCount, statement, beyond);
      if body.Err? { return Err(body.error); }
      maxIdx := fieldIdx;
      topicCount := if 4 <= fieldIdx < 8 then topicCount + 1 else topicCount;
      statement, offset := body.value.0, body.value.1;
    }
    r := Ok(statement);
  }
}
