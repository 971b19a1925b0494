/**
 * The part of the BSON package the handlers rely on: an ObjectId, its
 * hexadecimal text form (`Hex`) and the parse back (`ObjectIdHex`).
 */
module Bson {
  import opened Wrappers

  /** bson.ObjectId is a string of raw bytes; a well-formed one has twelve. */
  datatype ObjectId = ObjectId(bytes: seq<bv8>) {
    /** ObjectId.Valid only checks the length. */
    predicate Valid() {
      |bytes| == 12
    }
  }

  /** The lower-case hexadecimal digit for a nibble. */
  function HexDigit(n: bv8): (c: char)
    requires n < 16
  {
    if n < 10 then ('0' as int + n as int) as char else ('a' as int + n as int - 10) as char
  }

  /** The nibble a hexadecimal digit stands for; both cases are accepted. */
  function DigitValue(c: char): (r: Option<bv8>)
    ensures r.Some? ==> r.value < 16
  {
    if '0' <= c <= '9' then Some((c as int - '0' as int) as bv8)
    else if 'a' <= c <= 'f' then Some((c as int - 'a' as int + 10) as bv8)
    else if 'A' <= c <= 'F' then Some((c as int - 'A' as int + 10) as bv8)
    else None
  }

  /** Two digits per byte, high nibble first. */
  function EncodeHex(b: seq<bv8>): (s: string)
    ensures |s| == 2 * |b|
  {
    if b == [] then [] else [HexDigit(b[0] >> 4), HexDigit(b[0] & 15)] + EncodeHex(b[1..])
  }

  /** Hexadecimal decoding: fails on an odd length or a character that is not a digit. */
  function DecodeHex(s: string): (r: Option<seq<bv8>>)
    ensures r.Some? ==> |s| == 2 * |r.value|
  {
    if |s| == 0 then Some([])
    else if |s| == 1 then None
    else
      match (DigitValue(s[0]), DigitValue(s[1]), DecodeHex(s[2..]))
      case (Some(hi), Some(lo), Some(rest)) => Some([(hi << 4) | lo] + rest)
      case _ => None
  }

  /** ObjectId.Hex: the id as 2 hexadecimal digits per byte. */
  function Hex(id: ObjectId): (s: string)
    ensures id.Valid() ==> |s| == 24
  {
    EncodeHex(id.bytes)
  }

  /**
   * bson.ObjectIdHex: the id whose hexadecimal text is `s`. Text that is not
   * hexadecimal, or that decodes to other than twelve bytes, panics; so an id
   * it returns is always valid, and only 24-character text can yield one.
   */
  function ObjectIdHex(s: string): (r: Exec<ObjectId>)
    ensures r.Returns? <==> DecodeHex(s).Some? && |DecodeHex(s).value| == 12
    ensures r.Returns? ==> r.value.Valid() && r.value.bytes == DecodeHex(s).value
    ensures |s| != 24 ==> r.Panics?
  {
    match DecodeHex(s)
    case Some(b) =>
      if |b| == 12 then Returns(ObjectId(b)) else Panics("invalid input to ObjectIdHex: " + s)
    case None => Panics("invalid input to ObjectIdHex: " + s)
  }

  lemma DigitRoundTrip(n: bv8)
    requires n < 16
    ensures DigitValue(HexDigit(n)) == Some(n)
  {
  }

  lemma NibblesRebuildByte(b: bv8)
    ensures b >> 4 < 16 && b & 15 < 16
    ensures ((b >> 4) << 4) | (b & 15) == b
  {
  }

  /** Decoding undoes encoding, for every byte string. */
  lemma {:induction false} HexRoundTrip(b: seq<bv8>)
    ensures DecodeHex(EncodeHex(b)) == Some(b)
  {
    if b != [] {
      var s := EncodeHex(b);
      NibblesRebuildByte(b[0]);
      DigitRoundTrip(b[0] >> 4);
      DigitRoundTrip(b[0] & 15);
      assert s[2..] == EncodeHex(b[1..]);
      HexRoundTrip(b[1..]);
      assert [b[0]] + b[1..] == b;
    }
  }

  /** The text `createModel` answers with parses back to the very same id. */
  lemma ObjectIdHexOfHex(id: ObjectId)
    requires id.Valid()
    ensures ObjectIdHex(Hex(id)) == Returns(id)
  {
    HexRoundTrip(id.bytes);
  }
}
