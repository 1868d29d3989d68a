/** The store's identifiers: twelve raw bytes, written externally as 24 hexadecimal digits.
    Parsing accepts either case of `a`-`f`; printing uses lower case. Two strings therefore name
    the same document exactly when they agree up to the case of their letters. */
module ObjectIds {
  import opened Results

  newtype byte = x: int | 0 <= x < 256

  type ObjectId = s: seq<byte> | |s| == 12 witness [0, 0, 0, 0, 0, 0, 0, 0, 0, 0, 0, 0]

  /** The zero identifier a freshly built Go struct carries before the store assigns one. */
  const NilObjectId: ObjectId := [0, 0, 0, 0, 0, 0, 0, 0, 0, 0, 0, 0]

  /** The lower-case digit for a nibble. */
  function HexDigit(n: int): (c: char)
    requires 0 <= n < 16
    ensures IsHexChar(c)
  {
    if n < 10 then ('0' as int + n) as char else ('a' as int + n - 10) as char
  }

  predicate IsHexChar(c: char) {
    '0' <= c <= '9' || 'a' <= c <= 'f' || 'A' <= c <= 'F'
  }

  function NibbleValue(c: char): (n: int)
    requires IsHexChar(c)
    ensures 0 <= n < 16
  {
    if '0' <= c <= '9' then c as int - '0' as int
    else if 'a' <= c <= 'f' then c as int - 'a' as int + 10
    else c as int - 'A' as int + 10
  }

  function LowerChar(c: char): char {
    if 'A' <= c <= 'Z' then (c as int - 'A' as int + 'a' as int) as char else c
  }

  function Lower(s: string): (r: string)
    ensures |r| == |s|
    ensures forall i :: 0 <= i < |s| ==> r[i] == LowerChar(s[i])
  {
    if s == [] then [] else [LowerChar(s[0])] + Lower(s[1..])
  }

  /** Two lower-case digits per byte, high nibble first. */
  function EncodeHex(bs: seq<byte>): (s: string)
    ensures |s| == 2 * |bs|
  {
    if bs == [] then []
    else [HexDigit(bs[0] as int / 16), HexDigit(bs[0] as int % 16)] + EncodeHex(bs[1..])
  }

  /** Decoding of an even-length digit string; `None` as soon as a character is not a digit. */
  function DecodeHex(s: string): (r: Option<seq<byte>>)
    requires |s| % 2 == 0
    ensures r.Some? ==> 2 * |r.value| == |s|
  {
    if s == [] then Some([])
    else if !IsHexChar(s[0]) || !IsHexChar(s[1]) then None
    else match DecodeHex(s[2..])
      case None => None
      case Some(rest) => Some([(NibbleValue(s[0]) * 16 + NibbleValue(s[1])) as byte] + rest)
  }

  /** `ObjectID.Hex()`. */
  function Hex(id: ObjectId): (s: string)
    ensures |s| == 24
  {
    EncodeHex(id)
  }

  /** `primitive.ObjectIDFromHex`: exactly 24 characters, all hexadecimal digits. */
  function ObjectIdFromHex(s: string): (r: Option<ObjectId>)
    ensures r.Some? <==> |s| == 24 && forall i :: 0 <= i < |s| ==> IsHexChar(s[i])
  {
    if |s| != 24 then None
    else
      DecodeHexAccepts(s);
      match DecodeHex(s)
      case None => None
      case Some(bs) => Some(bs)
  }

  lemma {:induction false} DecodeHexAccepts(s: string)
    requires |s| % 2 == 0
    ensures DecodeHex(s).Some? <==> forall i :: 0 <= i < |s| ==> IsHexChar(s[i])
  {
    if s != [] {
      DecodeHexAccepts(s[2..]);
      assert forall i :: 2 <= i < |s| ==> s[i] == s[2..][i - 2];
    }
  }

  lemma {:induction false} DecodeEncode(bs: seq<byte>)
    ensures DecodeHex(EncodeHex(bs)) == Some(bs)
  {
    if bs != [] {
      var s := EncodeHex(bs);
      assert s[2..] == EncodeHex(bs[1..]);
      DecodeEncode(bs[1..]);
      var hi, lo := bs[0] as int / 16, bs[0] as int % 16;
      assert NibbleValue(HexDigit(hi)) == hi && NibbleValue(HexDigit(lo)) == lo;
      assert [bs[0]] + bs[1..] == bs;
    }
  }

  lemma {:induction false} EncodeDecode(s: string)
    requires |s| % 2 == 0 && DecodeHex(s).Some?
    ensures EncodeHex(DecodeHex(s).value) == Lower(s)
  {
    if s != [] {
      EncodeDecode(s[2..]);
      var bs := DecodeHex(s).value;
      assert bs[1..] == DecodeHex(s[2..]).value;
      assert HexDigit(NibbleValue(s[0])) == LowerChar(s[0]);
      assert HexDigit(NibbleValue(s[1])) == LowerChar(s[1]);
      assert bs[0] as int / 16 == NibbleValue(s[0]) && bs[0] as int % 16 == NibbleValue(s[1]);
      assert Lower(s) == [LowerChar(s[0]), LowerChar(s[1])] + Lower(s[2..]);
    }
  }

  /** Printing an identifier and parsing it back yields the same identifier. */
  lemma ParseHex(id: ObjectId)
    ensures ObjectIdFromHex(Hex(id)) == Some(id)
  {
    DecodeEncode(id);
  }

  /** Parsing a valid string and printing it back yields its lower-case spelling. */
  lemma HexParse(s: string)
    requires ObjectIdFromHex(s).Some?
    ensures Hex(ObjectIdFromHex(s).value) == Lower(s)
  {
    EncodeDecode(s);
  }

  /** Two valid strings denote the same identifier exactly when they agree up to letter case. */
  lemma SameObjectId(s: string, t: string)
    requires ObjectIdFromHex(s).Some? && ObjectIdFromHex(t).Some?
    ensures ObjectIdFromHex(s) == ObjectIdFromHex(t) <==> Lower(s) == Lower(t)
  {
    HexParse(s);
    HexParse(t);
    ParseHex(ObjectIdFromHex(s).value);
    ParseHex(ObjectIdFromHex(t).value);
  }
}
