/** `Buffer.toString('hex')`: each byte as two lower-case hexadecimal digits,
    as used for email-verification tokens (app/api/auth/verify-email/route.ts:91). */
module Hex {

  type Byte = b: int | 0 <= b < 256

  predicate IsHexDigit(c: char) {
    '0' <= c <= '9' || 'a' <= c <= 'f'
  }

  function HexDigit(n: nat): (c: char)
    requires n < 16
    ensures IsHexDigit(c)
  {
    if n < 10 then ('0' as int + n) as char else ('a' as int + n - 10) as char
  }

  function HexValue(c: char): (n: nat)
    requires IsHexDigit(c)
    ensures n < 16 && HexDigit(n) == c
  {
    if c <= '9' then c as int - '0' as int else c as int - 'a' as int + 10
  }

  function Encode(bytes: seq<Byte>): (s: string)
    ensures |s| == 2 * |bytes|
    ensures forall i :: 0 <= i < |s| ==> IsHexDigit(s[i])
  {
    if bytes == [] then []
    else [HexDigit(bytes[0] / 16), HexDigit(bytes[0] % 16)] + Encode(bytes[1..])
  }

  function Decode(s: string): (bytes: seq<Byte>)
    requires |s| % 2 == 0
    requires forall i :: 0 <= i < |s| ==> IsHexDigit(s[i])
    ensures 2 * |bytes| == |s|
  {
    if s == [] then []
    else [(16 * HexValue(s[0]) + HexValue(s[1])) as Byte] + Decode(s[2..])
  }

  /** The hex text determines the bytes: decoding an encoding gives them back. */
  lemma {:induction false} DecodeEncode(bytes: seq<Byte>)
    ensures Decode(Encode(bytes)) == bytes
  {
    if bytes != [] {
      var s := Encode(bytes);
      assert s[2..] == Encode(bytes[1..]);
      assert HexValue(s[0]) == bytes[0] / 16 && HexValue(s[1]) == bytes[0] % 16 by {
        var h, l := bytes[0] / 16, bytes[0] % 16;
        assert HexValue(HexDigit(h)) == h;
        assert HexValue(HexDigit(l)) == l;
      }
      DecodeEncode(bytes[1..]);
    }
  }

  /** Two byte strings with the same hex text are equal. */
  lemma EncodeInjective(a: seq<Byte>, b: seq<Byte>)
    requires Encode(a) == Encode(b)
    ensures a == b
  {
    DecodeEncode(a);
    DecodeEncode(b);
  }
}
