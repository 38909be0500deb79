/** Lower-case hexadecimal text for byte strings, as Go's encoding/hex package
    encodes and decodes it. */
module Hex {
  import opened Wrappers

  /** One octet. */
  type Byte = b: int | 0 <= b < 256

  predicate IsLowerHexDigit(c: char) {
    '0' <= c <= '9' || 'a' <= c <= 'f'
  }

  /** encoding/hex accepts both cases when decoding. */
  predicate IsHexDigit(c: char) {
    IsLowerHexDigit(c) || 'A' <= c <= 'F'
  }

  predicate IsLowerHex(s: string) {
    forall i :: 0 <= i < |s| ==> IsLowerHexDigit(s[i])
  }

  /** The numeric value of one hexadecimal digit. */
  function DigitValue(c: char): (n: int)
    requires IsHexDigit(c)
    ensures 0 <= n < 16
  {
    if '0' <= c <= '9' then c as int - '0' as int
    else if 'a' <= c <= 'f' then c as int - 'a' as int + 10
    else c as int - 'A' as int + 10
  }

  /** The lower-case digit for a nibble; DigitValue undoes it. */
  function HexDigit(n: int): (c: char)
    requires 0 <= n < 16
    ensures IsLowerHexDigit(c) && DigitValue(c) == n
  {
    if n < 10 then ('0' as int + n) as char else ('a' as int + n - 10) as char
  }

  /** Every lower-case digit is the digit of its own value. */
  lemma HexDigitOfValue(c: char)
    requires IsLowerHexDigit(c)
    ensures HexDigit(DigitValue(c)) == c
  {
  }

  /** hex.EncodeToString: two lower-case digits per byte, high nibble first. */
  function EncodeToString(bs: seq<Byte>): (s: string)
    ensures |s| == 2 * |bs|
    ensures IsLowerHex(s)
  {
    seq(2 * |bs|, i requires 0 <= i < 2 * |bs| =>
      HexDigit(if i % 2 == 0 then bs[i / 2] / 16 else bs[i / 2] % 16))
  }

  /** hex.DecodeString: fails on odd length or on a character that is not a
      hexadecimal digit of either case. */
  function DecodeString(s: string): (r: Option<seq<Byte>>)
    ensures r.Some? <==> |s| % 2 == 0 && forall i :: 0 <= i < |s| ==> IsHexDigit(s[i])
    ensures r.Some? ==> |r.value| == |s| / 2
  {
    if |s| % 2 != 0 || exists i :: 0 <= i < |s| && !IsHexDigit(s[i]) then None
    else Some(seq(|s| / 2, j requires 0 <= j < |s| / 2 =>
      DigitValue(s[2 * j]) * 16 + DigitValue(s[2 * j + 1])))
  }

  /** Byte j of the input is spelled by digits 2j and 2j+1 of the encoding. */
  lemma EncodeAt(bs: seq<Byte>, j: int)
    requires 0 <= j < |bs|
    ensures EncodeToString(bs)[2 * j] == HexDigit(bs[j] / 16)
    ensures EncodeToString(bs)[2 * j + 1] == HexDigit(bs[j] % 16)
  {
    assert (2 * j) % 2 == 0 && (2 * j) / 2 == j;
    assert (2 * j + 1) % 2 == 1 && (2 * j + 1) / 2 == j;
  }

  /** Decoding undoes encoding. */
  lemma DecodeEncode(bs: seq<Byte>)
    ensures DecodeString(EncodeToString(bs)) == Some(bs)
  {
    var s := EncodeToString(bs);
    var d := DecodeString(s);
    assert d.Some?;
    forall j | 0 <= j < |bs|
      ensures d.value[j] == bs[j]
    {
      EncodeAt(bs, j);
    }
    assert d.value == bs;
  }

  /** Encoding undoes decoding of lower-case text. */
  lemma EncodeDecode(s: string)
    requires |s| % 2 == 0 && IsLowerHex(s)
    ensures DecodeString(s).Some? && EncodeToString(DecodeString(s).value) == s
  {
    var bs := DecodeString(s).value;
    var e := EncodeToString(bs);
    forall i | 0 <= i < |s|
      ensures e[i] == s[i]
    {
      var j := i / 2;
      EncodeAt(bs, j);
      var hi, lo := DigitValue(s[2 * j]), DigitValue(s[2 * j + 1]);
      assert bs[j] == hi * 16 + lo;
      assert bs[j] / 16 == hi && bs[j] % 16 == lo;
      HexDigitOfValue(s[2 * j]);
      HexDigitOfValue(s[2 * j + 1]);
      assert i == 2 * j || i == 2 * j + 1;
    }
  }
}
