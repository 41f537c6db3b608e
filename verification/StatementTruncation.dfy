/**
 * Inputs that end before their statement does: exactly which of them the decoder accepts, and
 * exactly when it matters what a larger buffer holds behind the bytes it was given.
 */
module StatementTruncation {
  import opened Common
  import opened Compact
  import opened StatementCodec

  // -- Encodings that are cut short ---------------------------------------------------------------

  /** The first c bytes of the field, its variant index among them, are enough for the decoder. */
  predicate Survives(f: Field, c: nat) {
    && c > 0 && !f.ExpiryField?
    && (f.ProofField? ==> c > 1 && !f.proof.OnChain?)
  }

  /** The cut, after c bytes of the fields, is inside the last of them, which survives it. */
  predicate Late(fs: seq<Field>, c: nat)
    requires AllPrintable(fs)
  {
    fs != [] &&
    var last := fs[|fs| - 1];
    var before := |PrintFields(fs)| - |PrintField(last)|;
    before < c && Survives(last, c - before)
  }

  lemma CutProof(pre: seq<byte>, p: Proof, c: nat)
    requires WellFormedProof(p) && EncodeProof(p).Some? && c < |EncodeProof(p).value|
    ensures var data := pre + EncodeProof(p).value[..c]; var r := ParseProof(data, |pre|, []);
      && (r.Ok? <==> c > 0 && !p.OnChain?)
      && (r.Ok? ==> r.value.field.ProofField? && r.value.next > |data|)
  {
    hide EncodeU64;
    hide FromLittleEndian;
    if p.OnChain? {
      EncodeOnChainLayout(p.who, p.blockHash, p.event);
    }
    var body := EncodeProof(p).value;
    var data := pre + body[..c];
    if c > 0 {
      assert data[|pre|] == body[0];
    }
  }

  /** A field that is cut either fails or, unless it is the data field, ends past the input. */
  lemma CutField(pre: seq<byte>, f: Field, c: nat, maxIdx: int, topics: nat)
    requires WellFormedField(f) && Printable(f) && Index(f) > maxIdx && c < |PrintField(f)|
    requires f.TopicField? ==> f.position == topics < 4
    ensures var data := pre + PrintField(f)[..c]; var r := ParseField(data, |pre|, maxIdx, topics, []);
      && (r.Ok? <==> Survives(f, c))
      && (r.Ok? && !f.DataField? ==> r.value.next > |data|)
  {
    hide EncodeCompact;
    hide DecodeCompact;
    hide EncodeProof;
    hide EncodeU64;
    hide ParseProof;
    hide FromLittleEndian;
    var data := pre + PrintField(f)[..c];
    if c > 0 {
      assert data[|pre|] == Index(f);
      match f
      case ProofField(p) =>
        var pre' := pre + [0];
        assert data == pre' + EncodeProof(p).value[..c - 1];
        CutProof(pre', p, c - 1);
      case DataField(b) => CutData(pre, b, c);
      case _ =>
    }
  }

  /** However little is left of a data field, its length can be read. */
  lemma CutData(pre: seq<byte>, b: seq<byte>, c: nat)
    requires |b| < 0x4000_0000 && Printable(DataField(b)) && 0 < c < |PrintField(DataField(b))|
    ensures DecodeCompact(From(pre + PrintField(DataField(b))[..c], |pre| + 1)).Some?
  {
    var length := EncodeCompact(|b|).value;
    var data := pre + PrintField(DataField(b))[..c];
    var rest := From(data, |pre| + 1);
    LengthMode(|b|);
    hide EncodeCompact;
    hide DecodeCompact;
    if c > 1 {
      assert rest[0] == length[0];
    } else {
      assert rest == [];
    }
    DecodeIsUnsigned(rest);
  }

  lemma LengthMode(value: nat)
    requires value < 0x4000_0000
    ensures EncodeCompact(value).Some? && EncodeCompact(value).value != [] && EncodeCompact(value).value[0] % 4 != 3
  {
    hide EncodeCompact;
    hide DecodeCompact;
    CompactRoundTrip(value, []);
    var length := EncodeCompact(value).value;
    assert length + [] == length;
    DecodeIsUnsigned(length);
  }

  /** With the cursor past the input no field can be read. */
  lemma NothingLeft(data: seq<byte>, o: nat, n: nat, maxIdx: int, topics: nat, beyond: seq<byte>)
    requires o >= |data| && n > 0
    ensures ParseFields(data, o, n, maxIdx, topics, beyond) == Err(UnknownField)
  {
  }

  lemma {:induction false} CutFields(pre: seq<byte>, fs: seq<Field>, c: nat, maxIdx: int, topics: nat)
    requires Ordered(fs, maxIdx, topics) && AllWellFormed(fs) && AllPrintable(fs) && c < |PrintFields(fs)|
    ensures ParseFields(pre + PrintFields(fs)[..c], |pre|, |fs|, maxIdx, topics, []).Ok? <==> Late(fs, c)
    decreases |fs|
  {
    hide ParseField;
    hide PrintField;
    var f, tail := fs[0], fs[1..];
    var pf, topics' := PrintField(f), if f.TopicField? then topics + 1 else topics;
    var data := pre + PrintFields(fs)[..c];
    if c < |pf| {
      assert PrintFields(fs)[..c] == pf[..c];
      CutField(pre, f, c, maxIdx, topics);
      CutHead(data, |pre|, fs, c, maxIdx, topics);
    } else {
      var post := PrintFields(tail)[..c - |pf|];
      assert data == pre + pf + post == (pre + pf) + post;
      FieldRoundTrip(pre, f, post, maxIdx, topics, []);
      CutFields(pre + pf, tail, c - |pf|, Index(f), topics');
      LateTail(fs, c);
    }
  }

  lemma LateTail(fs: seq<Field>, c: nat)
    requires AllPrintable(fs) && |fs| > 1 && c >= |PrintField(fs[0])|
    ensures AllPrintable(fs[1..]) && (Late(fs, c) <==> Late(fs[1..], c - |PrintField(fs[0])|))
  {
    hide PrintField;
    assert fs[1..][|fs[1..]| - 1] == fs[|fs| - 1];
  }

  /** The first field is cut: that is accepted only if it is also the last. */
  lemma CutHead(data: seq<byte>, o: nat, fs: seq<Field>, c: nat, maxIdx: int, topics: nat)
    requires Ordered(fs, maxIdx, topics) && fs != [] && AllPrintable(fs) && c < |PrintField(fs[0])|
    requires var r := ParseField(data, o, maxIdx, topics, []);
      && (r.Ok? <==> Survives(fs[0], c)) && (r.Ok? && !fs[0].DataField? ==> r.value.next > |data|)
    ensures ParseFields(data, o, |fs|, maxIdx, topics, []).Ok? <==> Late(fs, c)
  {
    hide ParseField;
    hide PrintField;
    var r := ParseField(data, o, maxIdx, topics, []);
    if |fs| == 1 {
      assert PrintFields(fs[1..]) == [];
    } else {
      AtLeastFirst(fs);
      if r.Ok? {
        var Parsed(f, next, _) := r.value;
        NothingLeft(data, next, |fs| - 1, Index(f), if f.TopicField? then topics + 1 else topics, []);
      }
    }
  }

  lemma {:induction false} AtLeastFirst(fs: seq<Field>)
    requires AllPrintable(fs) && |fs| > 1
    ensures |PrintFields(fs)| - |PrintField(fs[|fs| - 1])| >= |PrintField(fs[0])|
  {
    hide PrintField;
    if |fs| > 2 {
      AtLeastFirst(fs[1..]);
    } else {
      assert PrintFields(fs[1..][1..]) == [];
    }
  }

  /**
   * Of the encodings that are cut short, the decoder accepts exactly the empty one and those
   * cut inside their last field, unless that field is the expiry, an on-chain proof, or a
   * proof of which nothing but the variant index is left.
   */
  lemma TruncationAcceptedIff(s: Statement, k: nat)
    requires WellFormed(s) && EncodeStatement(s).Ok? && k < |EncodeStatement(s).value|
    ensures AllPrintable(FieldsOf(s))
    ensures DecodeStatement(EncodeStatement(s).value[..k], []).Ok? <==> k == 0 || Late(FieldsOf(s), k - 1)
  {
    hide FieldsOf;
    hide PrintFields;
    hide ParseFields;
    hide EncodeCompact;
    hide DecodeCompact;
    hide Late;
    var bytes, fs := EncodeStatement(s).value, FieldsOf(s);
    forall f <- fs ensures Printable(f) {
      WellFormedIsPrintable(f);
    }
    AssembleFieldsOf(s);
    ProofAndDataListed(s);
    if k == 0 {
      assert bytes[..k] == [];
      EmptyInputAccepted();
    } else {
      OneByteRoundTrip(|fs|, []);
      assert bytes == [4 * |fs|] + PrintFields(fs);
      var post := PrintFields(fs)[..k - 1];
      OneByteRoundTrip(|fs|, post);
      assert bytes[..k] == [4 * |fs|] + post;
      CutFields([4 * |fs|], fs, k - 1, -1, 0);
    }
  }

  // -- What stands behind the view ------------------------------------------------------------------------

  /** Only a u64 that does not fit the input looks behind it. */
  lemma FieldBehind(data: seq<byte>, o: nat, maxIdx: int, topics: nat, beyond: seq<byte>)
    ensures ParseField(data, o, maxIdx, topics, []) != Err(OutOfRange) ==>
      ParseField(data, o, maxIdx, topics, beyond) == ParseField(data, o, maxIdx, topics, [])
    ensures ParseField(data, o, maxIdx, topics, []) == Err(OutOfRange) && |beyond| >= 73 ==>
      var r := ParseField(data, o, maxIdx, topics, beyond); r.Ok? && r.value.next > |data|
  {
    hide FromLittleEndian;
    hide DecodeCompact;
    forall i: nat ensures ReadU64(data, i, []).Some? ==> ReadU64(data, i, beyond) == ReadU64(data, i, []) {
      if i + 8 <= |data| {
        ReadWithin(data, i, beyond);
        ReadWithin(data, i, []);
      }
    }
  }

  lemma {:induction false} FieldsBehind(data: seq<byte>, o: nat, n: nat, maxIdx: int, topics: nat, beyond: seq<byte>)
    ensures ParseFields(data, o, n, maxIdx, topics, []) != Err(OutOfRange) ==>
      ParseFields(data, o, n, maxIdx, topics, beyond) == ParseFields(data, o, n, maxIdx, topics, [])
    ensures ParseFields(data, o, n, maxIdx, topics, []) == Err(OutOfRange) && |beyond| >= 73 ==>
      ParseFields(data, o, n, maxIdx, topics, beyond) != Err(OutOfRange)
    decreases n
  {
    hide ParseField;
    if n > 0 {
      FieldBehind(data, o, maxIdx, topics, beyond);
      var r := ParseField(data, o, maxIdx, topics, beyond);
      if r.Ok? {
        var Parsed(f, next, _) := r.value;
        var topics' := if f.TopicField? then topics + 1 else topics;
        FieldsBehind(data, next, n - 1, Index(f), topics', beyond);
        if next > |data| && n > 1 {
          NothingLeft(data, next, n - 1, Index(f), topics', beyond);
        }
      }
    }
  }

  /** The bytes behind an input matter exactly if, without them, a number in it runs out of range. */
  lemma BufferMattersIff(data: seq<byte>)
    ensures (forall beyond :: DecodeStatement(data, beyond) == DecodeStatement(data, [])) <==>
      DecodeStatement(data, []) != Err(OutOfRange)
  {
    hide ParseFields;
    hide DecodeCompact;
    if DecodeCompact(data).Some? {
      var (count, used) := DecodeCompact(data).value;
      forall beyond
        ensures DecodeStatement(data, []) != Err(OutOfRange) ==> DecodeStatement(data, beyond) == DecodeStatement(data, [])
      {
        FieldsBehind(data, used, count, -1, 0, beyond);
      }
      var zeros := Zeros(73);
      FieldsBehind(data, used, count, -1, 0, zeros);
      assert DecodeStatement(data, []) == Err(OutOfRange) ==> DecodeStatement(data, zeros) != Err(OutOfRange);
    }
  }

  /** Seven bytes of an expiry: the eighth is the first byte behind the input. */
  const ShortExpiry: seq<byte> := [4, 2, 0, 0, 0, 0, 0, 0, 0]

  lemma ShortExpiryDepends(beyond: seq<byte>)
    ensures DecodeStatement(ShortExpiry, beyond).Ok? <==> beyond != []
  {
    hide FromLittleEndian;
    assert DecodeCompact(ShortExpiry) == Some((1, 1));
    var r := ParseField(ShortExpiry, 1, -1, 0, beyond);
    assert r.Ok? <==> beyond != [];
    if r.Ok? {
      assert ParseFields(ShortExpiry, r.value.next, 0, Index(r.value.field), 0, beyond).Ok?;
    }
  }

  /** Decoding depends on the input alone, for every input, exactly if the input is where its buffer ends. */
  lemma InputAloneIff(beyond: seq<byte>)
    ensures (forall data :: DecodeStatement(data, beyond) == DecodeStatement(data, [])) <==> beyond == []
  {
    ShortExpiryDepends(beyond);
    ShortExpiryDepends([]);
  }
}
