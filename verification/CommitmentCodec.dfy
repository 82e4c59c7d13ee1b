/** The data field of a slashing commitment transaction:
      SlashCommitment@<proof id byte>@<shard id>@<round>@<2-byte CRC>@<signature>
    `Layout` is what `computeTxData` writes with `fmt.Sprintf`; `Decode` is an
    independent reader of that layout; `Encode` is the layout, proved to be
    the one byte string that reads back as its commitment. Because the proof
    id and the CRC have fixed widths and the decimal fields never contain `@`,
    the layout is unambiguous even when the id, CRC or signature bytes
    contain `@`. */
module CommitmentCodec {
  import opened Wrappers
  import opened Bytes

  /** Key of the slashing commitment built-in function. */
  const BuiltInFunctionSlashCommitmentProof: string := "SlashCommitment"

  /** The last two bytes of the proof hash. */
  type Crc = s: seq<byte> | |s| == 2 witness [0, 0]

  datatype Commitment = Commitment(proofId: byte, shardId: u32, round: u64, crc: Crc, signature: seq<byte>)

  /** The bytes of `BuiltInFunctionSlashCommitmentProof`, spelled out
      (`MarkerSpellsFunctionKey` checks them against the string). */
  const Marker: seq<byte> := [0x53, 0x6c, 0x61, 0x73, 0x68, 0x43, 0x6f, 0x6d, 0x6d, 0x69, 0x74, 0x6d, 0x65, 0x6e, 0x74]

  lemma MarkerSpellsFunctionKey()
    ensures IsAscii(BuiltInFunctionSlashCommitmentProof)
    ensures Marker == Ascii(BuiltInFunctionSlashCommitmentProof)
  {
    var k := BuiltInFunctionSlashCommitmentProof;
    assert |k| == |Marker| == 15;
    assert forall i :: 0 <= i < 15 ==> k[i] as int == Marker[i] as int < 128;
    AsciiIsUnique(k, Marker);
  }

  /** `Ascii(s)` is the only byte sequence matching `s` code point by code point. */
  lemma AsciiIsUnique(s: string, b: seq<byte>)
    requires IsAscii(s) && |b| == |s|
    requires forall i :: 0 <= i < |s| ==> b[i] as int == s[i] as int
    ensures b == Ascii(s)
  {
    var a := Ascii(s);
    assert forall i :: 0 <= i < |s| ==> a[i] == b[i];
  }

  /** The bytes `computeTxData` formats with
      `Sprintf("%s@%s@%d@%d@%s@%s", key, id, shard, round, crc, signature)`. */
  function Layout(c: Commitment): seq<byte> {
    Marker + [At, c.proofId, At] + Decimal(c.shardId) + [At] + Decimal(c.round) + [At] + c.crc + [At] + c.signature
  }

  /** Position of the first occurrence of `b` in `s`. */
  function IndexOf(s: seq<byte>, b: byte): (r: Option<nat>)
    ensures r.None? <==> b !in s
    ensures r.Some? ==> r.value < |s| && s[r.value] == b && b !in s[..r.value]
  {
    if |s| == 0 then None
    else if s[0] == b then Some(0)
    else match IndexOf(s[1..], b)
      case None => None
      case Some(k) =>
        assert s[..k + 1] == [s[0]] + s[1..][..k];
        Some(k + 1)
  }

  /** Splits `s` at its first `@` into the field before it and the rest after it. */
  function SplitField(s: seq<byte>): (r: Option<(seq<byte>, seq<byte>)>)
    ensures r.Some? ==> At !in r.value.0 && s == r.value.0 + [At] + r.value.1
  {
    match IndexOf(s, At)
    case None => None
    case Some(k) =>
      assert s == s[..k] + [At] + s[k + 1..];
      Some((s[..k], s[k + 1..]))
  }

  /** Reads the fields that follow `SlashCommitment@<id>@`. */
  function DecodeFields(proofId: byte, rest: seq<byte>): Option<Commitment> {
    match SplitField(rest)
    case None => None
    case Some((shardDigits, rest2)) =>
      match SplitField(rest2)
      case None => None
      case Some((roundDigits, tail)) =>
        if |tail| < 3 || tail[2] != At then None
        else match ParseDecimal(shardDigits)
          case None => None
          case Some(shard) =>
            match ParseDecimal(roundDigits)
            case None => None
            case Some(round) =>
              if shard < TwoTo32 && round < TwoTo64
              then Some(Commitment(proofId, shard, round, tail[..2], tail[3..]))
              else None
  }

  function Decode(data: seq<byte>): Option<Commitment> {
    var m := |Marker|;
    if |data| < m + 3 || data[..m] != Marker || data[m] != At || data[m + 2] != At then None
    else DecodeFields(data[m + 1], data[m + 3..])
  }

  /** The first `@` after a field free of `@` is the separator that ends it. */
  lemma SplitAfterField(d: seq<byte>, rest: seq<byte>)
    requires At !in d
    ensures SplitField(d + [At] + rest) == Some((d, rest))
  {
    var s := d + [At] + rest;
    assert s[|d|] == At;
    assert s[..|d|] == d;
    var k := IndexOf(s, At).value;
    assert k == |d|;
    assert s[k + 1..] == rest;
  }

  /** The fields after the id of an encoded commitment. */
  function FieldsLayout(c: Commitment): seq<byte> {
    Decimal(c.shardId) + [At] + (Decimal(c.round) + [At] + (c.crc + [At] + c.signature))
  }

  lemma LayoutSplitsAtId(c: Commitment)
    ensures Layout(c) == Marker + [At, c.proofId, At] + FieldsLayout(c)
  {
  }

  lemma DecodeFieldsOfLayout(c: Commitment)
    ensures DecodeFields(c.proofId, FieldsLayout(c)) == Some(c)
  {
    var ds := Decimal(c.shardId);
    var dr := Decimal(c.round);
    var tail := c.crc + [At] + c.signature;
    var rest2 := dr + [At] + tail;
    SplitAfterField(ds, rest2);
    SplitAfterField(dr, tail);
    DecimalRoundTrip(c.shardId);
    DecimalRoundTrip(c.round);
    assert tail[..2] == c.crc && tail[3..] == c.signature;
    DecodeFieldsOfParts(c.proofId, FieldsLayout(c), ds, rest2, dr, tail, c.shardId, c.round);
  }

  /** `DecodeFields` on input whose two separators and decimal fields are known. */
  lemma DecodeFieldsOfParts(proofId: byte, rest: seq<byte>, ds: seq<byte>, rest2: seq<byte>,
                            dr: seq<byte>, tail: seq<byte>, shard: u32, round: u64)
    requires SplitField(rest) == Some((ds, rest2)) && SplitField(rest2) == Some((dr, tail))
    requires |tail| >= 3 && tail[2] == At
    requires ParseDecimal(ds) == Some(shard as nat) && ParseDecimal(dr) == Some(round as nat)
    ensures DecodeFields(proofId, rest) == Some(Commitment(proofId, shard, round, tail[..2], tail[3..]))
  {
  }

  /** Decoding an encoded commitment gives it back. */
  lemma DecodeLayout(c: Commitment)
    ensures Decode(Layout(c)) == Some(c)
  {
    var data := Layout(c);
    var m := |Marker|;
    var fields := FieldsLayout(c);
    LayoutSplitsAtId(c);
    assert data[..m] == Marker;
    assert data[m] == At && data[m + 1] == c.proofId && data[m + 2] == At;
    assert data[m + 3..] == fields;
    DecodeFieldsOfLayout(c);
  }

  /** The three pieces `DecodeFields` cuts an accepted input into. */
  lemma DecodedPieces(proofId: byte, rest: seq<byte>, c: Commitment)
      returns (shardDigits: seq<byte>, roundDigits: seq<byte>, tail: seq<byte>)
    requires DecodeFields(proofId, rest) == Some(c)
    ensures rest == shardDigits + [At] + (roundDigits + [At] + tail)
    ensures ParseDecimal(shardDigits) == Some(c.shardId as nat)
    ensures ParseDecimal(roundDigits) == Some(c.round as nat)
    ensures c.proofId == proofId && tail == c.crc + [At] + c.signature
  {
    assert SplitField(rest).Some?;
    var rest2;
    shardDigits, rest2 := SplitField(rest).value.0, SplitField(rest).value.1;
    assert SplitField(rest2).Some?;
    roundDigits, tail := SplitField(rest2).value.0, SplitField(rest2).value.1;
    assert |tail| >= 3 && tail[2] == At;
    assert c == Commitment(proofId, c.shardId, c.round, tail[..2], tail[3..]);
    assert tail == tail[..2] + [At] + tail[3..];
  }

  lemma FieldsLayoutOfDecoded(proofId: byte, rest: seq<byte>, c: Commitment)
    requires DecodeFields(proofId, rest) == Some(c)
    ensures c.proofId == proofId && FieldsLayout(c) == rest
  {
    var shardDigits, roundDigits, tail := DecodedPieces(proofId, rest, c);
    ParseDecimalIsCanonical(shardDigits, c.shardId);
    ParseDecimalIsCanonical(roundDigits, c.round);
  }

  /** What `Decode` checks before it reads the fields. */
  lemma DecodedHead(data: seq<byte>, c: Commitment)
    requires Decode(data) == Some(c)
    ensures |data| >= |Marker| + 3
    ensures data[..|Marker|] == Marker
    ensures data[|Marker|] == At && data[|Marker| + 2] == At
    ensures DecodeFields(data[|Marker| + 1], data[|Marker| + 3..]) == Some(c)
  {
  }

  /** Every data field `Decode` accepts is the encoding of what it returns:
      the commitment layout has a single spelling. */
  lemma LayoutOfDecoded(data: seq<byte>, c: Commitment)
    requires Decode(data) == Some(c)
    ensures Layout(c) == data
  {
    var m := |Marker| + 3;
    DecodedHead(data, c);
    FieldsLayoutOfDecoded(data[m - 2], data[m..], c);
    HeadSpelling(data, c.proofId);
    LayoutSplitsAtId(c);
    assert data == data[..m] + data[m..];
  }

  /** The first `|Marker| + 3` bytes of an input that starts like an encoding. */
  lemma HeadSpelling(data: seq<byte>, proofId: byte)
    requires |data| >= |Marker| + 3 && data[..|Marker|] == Marker
    requires data[|Marker|] == At && data[|Marker| + 1] == proofId && data[|Marker| + 2] == At
    ensures data[..|Marker| + 3] == Marker + [At, proofId, At]
  {
    var m := |Marker|;
    assert data[..m + 3] == data[..m] + [data[m], data[m + 1], data[m + 2]];
  }

  /** Every input that reads back as `c` is the layout of `c`. */
  lemma OnlyLayoutDecodesTo(c: Commitment)
    ensures forall data :: Decode(data) == Some(c) ==> data == Layout(c)
  {
    forall data | Decode(data) == Some(c) ensures data == Layout(c) {
      LayoutOfDecoded(data, c);
    }
  }

  /** The data field of commitment `c`: it reads back as `c`, and it is the
      only byte string that does. */
  function Encode(c: Commitment): (r: seq<byte>)
    ensures Decode(r) == Some(c)
    ensures forall data :: Decode(data) == Some(c) ==> data == r
  {
    DecodeLayout(c);
    OnlyLayoutDecodesTo(c);
    Layout(c)
  }
}
