/** Node's `Buffer.toString('hex')`: two lower-case hexadecimal digits per byte. */
module Hex {

  /** `0`–`9` and `a`–`f`. */
  predicate IsHexDigit(c: char) {
    ('0' <= c <= '9') || ('a' <= c <= 'f')
  }

  /** The lower-case digit for a nibble, and the nibble it reads back as. */
  function Digit(n: int): (c: char)
    requires 0 <= n < 16
    ensures IsHexDigit(c) && DigitValue(c) == n
  {
    if n < 10 then ('0' as int + n) as char else ('a' as int + n - 10) as char
  }

  /** The nibble a hex digit stands for; 0 for any other character. */
  function DigitValue(c: char): (n: int)
    ensures 0 <= n < 16
  {
    if '0' <= c <= '9' then c as int - '0' as int
    else if 'a' <= c <= 'f' then c as int - 'a' as int + 10
    else 0
  }

  /** The encoding of one byte: two digits that read back, high nibble first,
      as the byte's value. */
  function ByteToHex(b: bv8): (r: string)
    ensures |r| == 2 && IsHexDigit(r[0]) && IsHexDigit(r[1])
    ensures 16 * DigitValue(r[0]) + DigitValue(r[1]) == b as int
  {
    [Digit((b as int) / 16), Digit((b as int) % 16)]
  }

  /** Two hex digits per byte, so no separator such as `:` or `,` ever appears. */
  function ToHex(bytes: seq<bv8>): (r: string)
    ensures |r| == 2 * |bytes|
    ensures forall k :: 0 <= k < |r| ==> IsHexDigit(r[k])
    ensures ':' !in r && ',' !in r
  {
    if bytes == [] then "" else ByteToHex(bytes[0]) + ToHex(bytes[1..])
  }

  /** Hex decoding of a string of digit pairs, the inverse of ToHex. */
  function FromHex(s: string): (bytes: seq<bv8>)
    requires |s| % 2 == 0
    ensures |bytes| == |s| / 2
  {
    if s == [] then []
    else [(16 * DigitValue(s[0]) + DigitValue(s[1])) as bv8] + FromHex(s[2..])
  }

  /** Decoding reads the first digit pair and then the rest. */
  lemma FromHexPrefix(h: string, t: string)
    requires |h| == 2 && |t| % 2 == 0
    ensures FromHex(h + t) == [(16 * DigitValue(h[0]) + DigitValue(h[1])) as bv8] + FromHex(t)
  {
    assert (h + t)[2..] == t;
  }

  lemma ByteFromDigits(b: bv8, v: int)
    requires v == b as int
    ensures v as bv8 == b
  {
  }

  /** The hex text decodes back to the bytes, so distinct byte strings have
      distinct encodings. */
  lemma {:induction false} FromHexToHex(bytes: seq<bv8>)
    ensures FromHex(ToHex(bytes)) == bytes
  {
    if bytes != [] {
      var h := ByteToHex(bytes[0]);
      var t := ToHex(bytes[1..]);
      assert ToHex(bytes) == h + t;
      ByteFromDigits(bytes[0], 16 * DigitValue(h[0]) + DigitValue(h[1]));
      FromHexPrefix(h, t);
      FromHexToHex(bytes[1..]);
      assert [bytes[0]] + bytes[1..] == bytes;
    }
  }

  lemma ToHexInjective(a: seq<bv8>, b: seq<bv8>)
    requires ToHex(a) == ToHex(b)
    ensures a == b
  {
    FromHexToHex(a);
    FromHexToHex(b);
  }
}
