/** UTF-8 (section 3 of RFC 3629): the encoder, and a decoder that refuses every malformed sequence. */
module Utf8 {
  import opened Common

  function EncodeChar(c: char): (bs: seq<byte>)
    ensures 1 <= |bs| <= 4
  {
    var n := c as int;
    if n < 0x80 then [n]
    else if n < 0x800 then [0xC0 + n / 0x40, 0x80 + n % 0x40]
    else if n < 0x1_0000 then [0xE0 + n / 0x1000, 0x80 + n / 0x40 % 0x40, 0x80 + n % 0x40]
    else [0xF0 + n / 0x4_0000, 0x80 + n / 0x1000 % 0x40, 0x80 + n / 0x40 % 0x40, 0x80 + n % 0x40]
  }

  function Encode(s: string): seq<byte> {
    if s == "" then [] else EncodeChar(s[0]) + Encode(s[1..])
  }

  predicate Follows(b: byte) {
    0x80 <= b < 0xC0
  }

  /** The six bits that a byte after the first one carries. */
  function Low(b: byte): nat
    requires Follows(b)
  {
    b - 0x80
  }

  /** The first character and its length; overlong forms, surrogates and numbers past the end are refused. */
  function DecodeChar(bs: seq<byte>): (r: Option<(char, nat)>)
    requires bs != []
    ensures r.Some? ==> 1 <= r.value.1 <= |bs|
  {
    var b: nat := bs[0];
    if b < 0x80 then Some((b as char, 1))
    else if 0xC2 <= b < 0xE0 then
      if |bs| < 2 || !Follows(bs[1]) then None
      else Some((((b - 0xC0) * 0x40 + Low(bs[1])) as char, 2))
    else if 0xE0 <= b < 0xF0 then
      if |bs| < 3 || !Follows(bs[1]) || !Follows(bs[2]) then None
      else if (b == 0xE0 && bs[1] < 0xA0) || (b == 0xED && bs[1] >= 0xA0) then None
      else Some((((b - 0xE0) * 0x1000 + Low(bs[1]) * 0x40 + Low(bs[2])) as char, 3))
    else if 0xF0 <= b < 0xF5 then
      if |bs| < 4 || !Follows(bs[1]) || !Follows(bs[2]) || !Follows(bs[3]) then None
      else if (b == 0xF0 && bs[1] < 0x90) || (b == 0xF4 && bs[1] >= 0x90) then None
      else Some((((b - 0xF0) * 0x4_0000 + Low(bs[1]) * 0x1000 + Low(bs[2]) * 0x40 + Low(bs[3])) as char, 4))
    else None
  }

  /** `TextDecoder` with `fatal` and `ignoreBOM`; also what a Borsh string accepts. */
  function Decode(bs: seq<byte>): Option<string>
    decreases |bs|
  {
    if bs == [] then Some("")
    else
      var first := DecodeChar(bs);
      if first.None? then None
      else
        var rest := Decode(bs[first.value.1..]);
        if rest.None? then None else Some([first.value.0] + rest.value)
  }

  lemma CharReadsBack(c: char, rest: seq<byte>)
    ensures DecodeChar(EncodeChar(c) + rest) == Some((c, |EncodeChar(c)|))
  {
    var n := c as int;
    var bs := EncodeChar(c) + rest;
    assert n == n / 0x40 * 0x40 + n % 0x40;
    assert n / 0x40 == n / 0x1000 * 0x40 + n / 0x40 % 0x40;
    assert n / 0x1000 == n / 0x4_0000 * 0x40 + n / 0x1000 % 0x40;
    if n < 0x80 {
      assert bs[0] == n;
    } else if n < 0x800 {
      assert bs[0] == 0xC0 + n / 0x40 && bs[1] == 0x80 + n % 0x40;
    } else if n < 0x1_0000 {
      assert bs[0] == 0xE0 + n / 0x1000 && bs[1] == 0x80 + n / 0x40 % 0x40 && bs[2] == 0x80 + n % 0x40;
    } else {
      assert bs[0] == 0xF0 + n / 0x4_0000 && bs[1] == 0x80 + n / 0x1000 % 0x40 && bs[2] == 0x80 + n / 0x40 % 0x40 && bs[3] == 0x80 + n % 0x40;
    }
  }

  /** Six-bit digits are found again by division. */
  lemma SixBits(high: nat, low: nat)
    requires low < 0x40
    ensures (high * 0x40 + low) / 0x40 == high && (high * 0x40 + low) % 0x40 == low
  {
  }

  lemma Quotients(n: nat)
    ensures n / 0x1000 == n / 0x40 / 0x40 && n / 0x4_0000 == n / 0x40 / 0x40 / 0x40
  {
  }

  lemma LongFormIsOne(bs: seq<byte>)
    requires bs != [] && DecodeChar(bs).Some? && DecodeChar(bs).value.1 == 4
    ensures bs[..4] == EncodeChar(DecodeChar(bs).value.0)
  {
    var b: nat := bs[0];
    Quotients(DecodeChar(bs).value.0 as int);
    SixBits((b - 0xF0) * 0x1000 + Low(bs[1]) * 0x40 + Low(bs[2]), Low(bs[3]));
    SixBits((b - 0xF0) * 0x40 + Low(bs[1]), Low(bs[2]));
    SixBits(b - 0xF0, Low(bs[1]));
  }

  /** A character has no other encoding than its own. */
  lemma CharHasOneForm(bs: seq<byte>)
    requires bs != [] && DecodeChar(bs).Some?
    ensures bs[..DecodeChar(bs).value.1] == EncodeChar(DecodeChar(bs).value.0)
  {
    var k := DecodeChar(bs).value.1;
    var b: nat := bs[0];
    Quotients(DecodeChar(bs).value.0 as int);
    if k == 2 {
      SixBits(b - 0xC0, Low(bs[1]));
    } else if k == 3 {
      SixBits((b - 0xE0) * 0x40 + Low(bs[1]), Low(bs[2]));
      SixBits(b - 0xE0, Low(bs[1]));
    } else if k == 4 {
      LongFormIsOne(bs);
    }
  }

  /** Decoding accepts exactly the encodings, each as the one text it encodes. */
  lemma {:induction false} DecodesExactlyEncodings(bs: seq<byte>, s: string)
    ensures Decode(bs) == Some(s) <==> bs == Encode(s)
    decreases |bs|
  {
    if bs == [] {
      if s != "" {
        assert Encode(s) == EncodeChar(s[0]) + Encode(s[1..]);
      }
    } else {
      if bs == Encode(s) {
        CharReadsBack(s[0], Encode(s[1..]));
        assert bs[|EncodeChar(s[0])|..] == Encode(s[1..]);
        DecodesExactlyEncodings(bs[|EncodeChar(s[0])|..], s[1..]);
        assert [s[0]] + s[1..] == s;
      }
      if Decode(bs) == Some(s) {
        var k := DecodeChar(bs).value.1;
        CharHasOneForm(bs);
        assert s[1..] == Decode(bs[k..]).value;
        DecodesExactlyEncodings(bs[k..], s[1..]);
        assert bs == bs[..k] + bs[k..];
      }
    }
  }
}
