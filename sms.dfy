/** lib/sms.ts: phone-number normalisation and the OTP draw. Sending the SMS
    (Twilio) is not part of this model; routes take its outcome as a parameter. */
module Sms {
  import opened Js
  import opened Numbers

  function Kept(c: char): (r: string)
    ensures AllDigits(r) && |r| <= 1
  {
    if IsDigit(c) then [c] else []
  }

  /** `phone.replace(/\D/g, '')`: the ASCII digits of the input, in order. */
  function Digits(s: string): (r: string)
    ensures AllDigits(r) && |r| <= |s|
  {
    if s == [] then [] else Kept(s[0]) + Digits(s[1..])
  }

  /** Stripping non-digits works piece by piece, so the digits keep their order. */
  lemma {:induction false} DigitsConcat(a: string, b: string)
    ensures Digits(a + b) == Digits(a) + Digits(b)
  {
    if a == [] {
      assert a + b == b;
    } else {
      assert (a + b)[0] == a[0];
      assert (a + b)[1..] == a[1..] + b;
      DigitsConcat(a[1..], b);
    }
  }

  /** A string of digits is left as it is. */
  lemma {:induction false} DigitsOfDigits(s: string)
    requires AllDigits(s)
    ensures Digits(s) == s
  {
    if s != [] {
      DigitsOfDigits(s[1..]);
    }
  }

  /** Every digit of the input survives, and nothing else does. */
  lemma {:induction false} DigitsMembership(s: string, c: char)
    ensures c in Digits(s) <==> c in s && IsDigit(c)
  {
    if s != [] {
      DigitsMembership(s[1..], c);
      assert s == [s[0]] + s[1..];
    }
  }

  /** `formatPhoneNumber`: a '+'-prefixed input is returned untouched; otherwise
      ten digits get the default country code +1 and any other count just a '+'. */
  function FormatPhoneNumber(phone: string): (r: string)
    ensures StartsWith(r, '+')
    ensures StartsWith(phone, '+') ==> r == phone
    ensures !StartsWith(phone, '+') && |Digits(phone)| == 10 ==> r == "+1" + Digits(phone)
    ensures !StartsWith(phone, '+') && |Digits(phone)| != 10 ==> r == "+" + Digits(phone)
  {
    var digits := Digits(phone);
    if !StartsWith(phone, '+') then
      if |digits| == 10 then "+1" + digits else "+" + digits
    else
      phone
  }

  /** Without a leading '+', everything after the added prefix is the input's digits, in order. */
  lemma FormatKeepsDigits(phone: string)
    requires !StartsWith(phone, '+')
    ensures var r := FormatPhoneNumber(phone);
      exists prefix :: prefix in {"+", "+1"} && r == prefix + Digits(phone)
  {
    var r := FormatPhoneNumber(phone);
    if |Digits(phone)| == 10 {
      assert r == "+1" + Digits(phone);
    } else {
      assert r == "+" + Digits(phone);
    }
  }

  /** Formatting an already formatted number changes nothing. */
  lemma FormatIdempotent(phone: string)
    ensures FormatPhoneNumber(FormatPhoneNumber(phone)) == FormatPhoneNumber(phone)
  {
  }

  /** A number typed as bare digits gets +1 when it has ten of them and only '+'
      otherwise, so a local number with a trunk prefix such as 08011112222 (eleven
      digits) becomes +08011112222, not a number in another country code. */
  lemma {:induction false} FormatDigitString(phone: string)
    requires AllDigits(phone)
    ensures FormatPhoneNumber(phone) == (if |phone| == 10 then "+1" else "+") + phone
  {
    DigitsOfDigits(phone);
  }

  /** A '+'-prefixed number keeps its spaces and dashes. */
  lemma FormatKeepsPlusForm()
    ensures FormatPhoneNumber("+44 20 7946-0958") == "+44 20 7946-0958"
  {
  }

  /** `generateOTP`: `Math.floor(100000 + Math.random() * 900000)` rendered in decimal,
      where `draw` stands for `Math.floor(Math.random() * 900000)`. */
  function GenerateOtp(draw: nat): (otp: string)
    requires draw < 900000
    ensures |otp| == 6 && AllDigits(otp)
    ensures ParseDigits(otp) == 100000 + draw
    ensures 100000 <= ParseDigits(otp) <= 999999
  {
    assert Pow10(5) == 100000 && Pow10(6) == 1000000;
    NatToStringLength(100000 + draw, 6);
    ParseNatToString(100000 + draw);
    NatToString(100000 + draw)
  }
}
