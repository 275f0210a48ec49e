/**
 Base58 decoding as the bridge does it: one multiply-and-carry pass over a growing list of bytes
 for each digit. The reference is the number that the text denotes.
 */
module Base58 {
  import opened Common

  const ALPHABET: string := "123456789" + "ABCDEFGH" + "JKLMN" + "PQRSTUVWXYZ" + "abcdefghijk" + "mnopqrstuvwxyz"
  const PREFIX: string := "ed25519:"

  // ---------------------------------------------------------------- the reference

  /** `value.replace(/^ed25519:/, '')` */
  function Strip(value: string): string {
    if PREFIX <= value then value[|PREFIX|..] else value
  }

  /** `String.indexOf`; the length of the alphabet stands for "absent". */
  function IndexFrom(i: nat, c: char): (k: nat)
    requires i <= 58
    ensures i <= k <= 58 && (k < 58 ==> ALPHABET[k] == c)
    ensures forall j | i <= j < k :: ALPHABET[j] != c
    decreases 58 - i
  {
    if i == 58 || ALPHABET[i] == c then i else IndexFrom(i + 1, c)
  }

  function Digit(c: char): (d: nat)
    ensures d <= 58
  {
    IndexFrom(0, c)
  }

  predicate IsBase58(s: string) {
    forall i | 0 <= i < |s| :: Digit(s[i]) < 58
  }

  /** The number denoted by the digits, the most significant first. */
  function Value58(s: string): nat {
    if s == "" then 0 else 58 * Value58(s[..|s| - 1]) + Digit(s[|s| - 1])
  }

  /** The number denoted by the bytes, the most significant first. */
  function Value256(bs: seq<byte>): nat {
    if bs == [] then 0 else 256 * Value256(bs[..|bs| - 1]) + bs[|bs| - 1]
  }

  /** The shortest byte string that denotes `n`. */
  function MinimalBytes(n: nat): (bs: seq<byte>)
    ensures Value256(bs) == n && (bs != [] ==> bs[0] != 0)
  {
    if n == 0 then []
    else
      var high := MinimalBytes(n / 256);
      assert (high + [n % 256])[..|high|] == high;
      high + [n % 256]
  }

  function LeadingOnes(s: string): (k: nat)
    ensures k <= |s| && (forall i | 0 <= i < k :: s[i] == '1') && (k < |s| ==> s[k] != '1')
  {
    if s == "" || s[0] != '1' then 0 else 1 + LeadingOnes(s[1..])
  }

  function LeadingZeros(bs: seq<byte>): (k: nat)
    ensures k <= |bs| && (forall i | 0 <= i < k :: bs[i] == 0) && (k < |bs| ==> bs[k] != 0)
  {
    if bs == [] || bs[0] != 0 then 0 else 1 + LeadingZeros(bs[1..])
  }

  function Zeros(k: nat): (bs: seq<byte>)
    ensures |bs| == k && forall i | 0 <= i < k :: bs[i] == 0
  {
    seq(k, i => 0)
  }

  /** What decoding gives; `None` is the thrown error. The number zero brings one byte of its own. */
  function Decode(value: string): Option<seq<byte>> {
    var s := Strip(value);
    if !IsBase58(s) then None
    else
      var n := Value58(s);
      Some(Zeros(LeadingOnes(s) + (if n == 0 then 1 else 0)) + MinimalBytes(n))
  }

  // ---------------------------------------------------------------- little-endian arithmetic

  /** The number denoted by the bytes, the least significant first. */
  function Value(bs: seq<byte>): nat {
    if bs == [] then 0 else bs[0] + 256 * Value(bs[1..])
  }

  /** `x` moved up by `k` bytes. */
  function Shift(k: nat, x: nat): nat {
    if k == 0 then x else 256 * Shift(k - 1, x)
  }

  lemma {:induction false} ShiftAdds(k: nat, x: nat, y: nat)
    ensures Shift(k, x + y) == Shift(k, x) + Shift(k, y)
  {
    if k > 0 {
      ShiftAdds(k - 1, x, y);
    }
  }

  lemma {:induction false} ShiftOnce(k: nat, x: nat)
    ensures Shift(k, 256 * x) == Shift(k + 1, x)
  {
    if k > 0 {
      ShiftOnce(k - 1, x);
    }
  }

  lemma {:induction false} ShiftZero(k: nat)
    ensures Shift(k, 0) == 0
  {
    if k > 0 {
      ShiftZero(k - 1);
    }
  }

  lemma {:induction false} ValueAppend(bs: seq<byte>, b: byte)
    ensures Value(bs + [b]) == Value(bs) + Shift(|bs|, b)
  {
    if bs != [] {
      assert (bs + [b])[1..] == bs[1..] + [b];
      ValueAppend(bs[1..], b);
    }
  }

  function Reverse(bs: seq<byte>): (r: seq<byte>)
    ensures |r| == |bs|
  {
    if bs == [] then [] else Reverse(bs[1..]) + [bs[0]]
  }

  /** Reversed, a byte list without a zero on top is the shortest string for its number. */
  lemma {:induction false} ReverseIsMinimal(bs: seq<byte>)
    requires bs != [] ==> bs[|bs| - 1] != 0
    ensures Reverse(bs) == MinimalBytes(Value(bs))
  {
    if bs != [] {
      ReverseIsMinimal(bs[1..]);
      assert Value(bs) / 256 == Value(bs[1..]) && Value(bs) % 256 == bs[0];
    }
  }

  lemma {:induction false} ReverseAppend(bs: seq<byte>, b: byte)
    ensures Reverse(bs + [b]) == [b] + Reverse(bs)
  {
    if bs != [] {
      assert (bs + [b])[1..] == bs[1..] + [b];
      ReverseAppend(bs[1..], b);
    }
  }

  // ---------------------------------------------------------------- the loops

  /** One byte of the pass: its low part stays, the rest is carried. */
  lemma CarryStep(bs: seq<byte>, index: nat, carry: nat)
    requires index < |bs|
    ensures var c := carry + 58 * (bs[index] as nat);
            Shift(index, carry + 58 * Value(bs[index..])) == Shift(index, c % 256) + Shift(index + 1, c / 256 + 58 * Value(bs[index + 1..]))
  {
    var b, rest: nat := bs[index] as nat, Value(bs[index + 1..]);
    assert bs[index..][1..] == bs[index + 1..];
    var c := carry + 58 * b;
    assert carry + 58 * (b + 256 * rest) == c % 256 + 256 * (c / 256 + 58 * rest);
    ShiftAdds(index, c % 256, 256 * (c / 256 + 58 * rest));
    ShiftOnce(index, c / 256 + 58 * rest);
  }

  lemma PassBegins(bs: seq<byte>, digit: nat)
    ensures Value(bs[..0]) + Shift(0, digit + 58 * Value(bs[0..])) == digit + 58 * Value(bs)
  {
    assert bs[0..] == bs;
  }

  lemma PassEnds(index: nat, carry: nat)
    ensures Shift(index, carry + 58 * Value([])) == Shift(index, carry)
  {
  }

  /** Multiplies the number by 58 and adds a digit. The carry stays below 58, so one byte is added at most. */
  method TimesFiftyEightPlus(before: seq<byte>, digit: nat) returns (bytes: seq<byte>)
    requires digit < 58 && before != [] && (before == [0] || before[|before| - 1] != 0)
    ensures Value(bytes) == 58 * Value(before) + digit
    ensures |before| <= |bytes| <= |before| + 1
    ensures bytes == [0] || bytes[|bytes| - 1] != 0
  {
    hide Shift, Value;
    bytes := before;
    var carry: nat := digit;
    var index := 0;
    PassBegins(before, digit);
    while index < |bytes|
      invariant index <= |bytes| == |before| && carry < 58
      invariant bytes[index..] == before[index..]
      invariant Value(bytes[..index]) + Shift(index, carry + 58 * Value(before[index..])) == digit + 58 * Value(before)
      invariant index > 0 ==> 256 * carry + bytes[index - 1] >= 58 * (before[index - 1] as nat)
      invariant before == [0] ==> carry <= (if index == 0 then digit else 0)
    {
      CarryStep(before, index, carry);
      assert bytes[index] == bytes[index..][0] && before[index] == before[index..][0];
      carry := carry + (bytes[index] as nat) * 58;
      ValueAppend(bytes[..index], carry % 256);
      bytes := bytes[index := carry % 256];
      assert bytes[..index + 1] == bytes[..index] + [bytes[index]];
      carry := carry / 256;
      index := index + 1;
    }
    assert bytes[..index] == bytes && before[index..] == [];
    PassEnds(index, carry);
    while carry > 0
      invariant |before| <= |bytes| <= |before| + 1 && carry < 58
      invariant |bytes| == |before| + 1 ==> carry == 0
      invariant Value(bytes) + Shift(|bytes|, carry) == digit + 58 * Value(before)
      invariant carry == 0 ==> |bytes| == 1 || bytes[|bytes| - 1] != 0
    {
      ValueAppend(bytes, carry % 256);
      bytes := bytes + [carry % 256];
      carry := carry / 256;
      ShiftZero(|bytes|);
    }
    ShiftZero(|bytes|);
  }

  lemma ZeroByte(k: nat)
    ensures Reverse([0]) == [0] && Value([0]) == 0
    ensures Zeros(k) + [0] == Zeros(k + 1) + MinimalBytes(0)
  {
    assert [0 as byte][1..] == [];
  }

  lemma {:induction false} ReverseWithZeros(bs: seq<byte>, k: nat)
    ensures Reverse(bs + Zeros(k)) == Zeros(k) + Reverse(bs)
  {
    if k == 0 {
      assert bs + Zeros(k) == bs && Zeros(k) + Reverse(bs) == Reverse(bs);
    } else {
      assert bs + Zeros(k) == (bs + Zeros(k - 1)) + [0];
      ReverseAppend(bs + Zeros(k - 1), 0);
      ReverseWithZeros(bs, k - 1);
      assert Zeros(k) == [0] + Zeros(k - 1);
    }
  }

  lemma {:induction false} ValueIsPositive(bs: seq<byte>)
    requires bs != [] && bs[|bs| - 1] != 0
    ensures Value(bs) > 0
  {
    if |bs| > 1 {
      ValueIsPositive(bs[1..]);
    }
  }

  /** The two halves of the decoded list, put the right way round. */
  lemma NumberAndZeros(bs: seq<byte>, k: nat)
    requires bs == [0] || (bs != [] && bs[|bs| - 1] != 0)
    ensures Reverse(bs + Zeros(k)) == Zeros(k + (if Value(bs) == 0 then 1 else 0)) + MinimalBytes(Value(bs))
  {
    ReverseWithZeros(bs, k);
    if bs == [0] {
      ZeroByte(k);
    } else {
      ReverseIsMinimal(bs);
      ValueIsPositive(bs);
    }
  }

  lemma ValueOfZero()
    ensures Value([0]) == 0
  {
  }

  lemma {:induction false} LeadingOnesAre(s: string, k: nat)
    requires k <= |s| && (forall i | 0 <= i < k :: s[i] == '1') && (k < |s| ==> s[k] != '1')
    ensures LeadingOnes(s) == k
  {
    if k > 0 {
      LeadingOnesAre(s[1..], k - 1);
    }
  }

  method Base58Decode(value: string) returns (result: Option<seq<byte>>)
    ensures result == Decode(value)
  {
    hide Digit, MinimalBytes, LeadingOnes, LeadingZeros, Reverse, Value;
    var encoded := Strip(value);
    ValueOfZero();
    var bytes: seq<byte> := [0];
    for i := 0 to |encoded|
      invariant IsBase58(encoded[..i])
      invariant bytes != [] && (bytes == [0] || bytes[|bytes| - 1] != 0)
      invariant Value(bytes) == Value58(encoded[..i])
    {
      var digit := Digit(encoded[i]);
      assert encoded[..i + 1][..i] == encoded[..i];
      if digit == 58 {
        assert !IsBase58(encoded) by { assert encoded[i] == Strip(value)[i]; }
        return None;
      }
      bytes := TimesFiftyEightPlus(bytes, digit);
    }
    assert encoded[..|encoded|] == encoded;
    ghost var number := bytes;
    var i := 0;
    while i < |encoded| && encoded[i] == '1'
      invariant i <= |encoded| && forall j | 0 <= j < i :: encoded[j] == '1'
      invariant bytes == number + Zeros(i)
    {
      bytes := bytes + [0];
      i := i + 1;
    }
    LeadingOnesAre(encoded, i);
    NumberAndZeros(number, i);
    result := Some(Reverse(bytes));
  }

  // ---------------------------------------------------------------- what decoding means

  lemma {:induction false} ZerosCountNothing(k: nat, bs: seq<byte>)
    ensures Value256(Zeros(k) + bs) == Value256(bs)
    decreases k + |bs|
  {
    if bs != [] {
      assert (Zeros(k) + bs)[..k + |bs| - 1] == Zeros(k) + bs[..|bs| - 1];
      ZerosCountNothing(k, bs[..|bs| - 1]);
    } else if k > 0 {
      assert Zeros(k)[..k - 1] == Zeros(k - 1) && Zeros(k) + [] == Zeros(k);
      assert Zeros(k - 1) + [] == Zeros(k - 1);
      ZerosCountNothing(k - 1, []);
    }
  }

  lemma {:induction false} LeadingZerosAre(bs: seq<byte>, k: nat)
    requires k <= |bs| && (forall i | 0 <= i < k :: bs[i] == 0) && (k < |bs| ==> bs[k] != 0)
    ensures LeadingZeros(bs) == k
  {
    if k > 0 {
      LeadingZerosAre(bs[1..], k - 1);
    }
  }

  /** A digit is zero exactly when it is written as a one. */
  lemma ZeroDigit(c: char)
    ensures Digit(c) == 0 <==> c == '1'
  {
  }

  /** A text denotes zero exactly when it is nothing but ones. */
  lemma {:induction false} ZeroMeansOnes(s: string)
    requires IsBase58(s)
    ensures Value58(s) == 0 <==> forall i | 0 <= i < |s| :: s[i] == '1'
  {
    if s != "" {
      var n := |s| - 1;
      ZeroMeansOnes(s[..n]);
      ZeroDigit(s[n]);
      assert forall i | 0 <= i < n :: s[..n][i] == s[i];
    }
  }

  /**
   The decoded bytes denote the number that the text denotes, and start with exactly as many zero
   bytes as the text has leading ones, plus one when the text is nothing but ones (or empty).
   */
  lemma DecodeKeepsTheNumber(value: string)
    requires Decode(value).Some?
    ensures var s, bs := Strip(value), Decode(value).value;
            && Value256(bs) == Value58(s)
            && LeadingZeros(bs) == LeadingOnes(s) + (if LeadingOnes(s) == |s| then 1 else 0)
  {
    var s := Strip(value);
    var n := Value58(s);
    var k := LeadingOnes(s) + (if n == 0 then 1 else 0);
    ZeroMeansOnes(s);
    ZerosCountNothing(k, MinimalBytes(n));
    LeadingZerosAre(Zeros(k) + MinimalBytes(n), k);
  }

  // ---------------------------------------------------------------- the reference encoder

  /** The position of a character, read off its code. */
  function Place(c: char): int {
    var n := c as int;
    if n <= 57 then n - 49 else if n <= 72 then n - 56 else if n <= 78 then n - 57 else if n <= 90 then n - 58
    else if n <= 107 then n - 64 else n - 65
  }

  lemma PlaceInFirstPart(d: nat)
    requires d < 33
    ensures Place(ALPHABET[d]) == d && ALPHABET[d] != ':' && (ALPHABET[d] == '1' ==> d == 0)
  {
    if d < 9 {
      assert ALPHABET[d] == "123456789"[d];
    } else if d < 17 {
      assert ALPHABET[d] == "ABCDEFGH"[d - 9];
    } else if d < 22 {
      assert ALPHABET[d] == "JKLMN"[d - 17];
    } else {
      assert ALPHABET[d] == "PQRSTUVWXYZ"[d - 22];
    }
  }

  lemma PlaceInAlphabet(d: nat)
    requires d < 58
    ensures Place(ALPHABET[d]) == d && ALPHABET[d] != ':' && (ALPHABET[d] == '1' ==> d == 0)
  {
    if d < 33 {
      PlaceInFirstPart(d);
    } else if d < 44 {
      assert ALPHABET[d] == "abcdefghijk"[d - 33];
    } else {
      assert ALPHABET[d] == "mnopqrstuvwxyz"[d - 44];
    }
  }

  lemma DigitOfAlphabet(d: nat)
    requires d < 58
    ensures Digit(ALPHABET[d]) == d
  {
    PlaceInAlphabet(d);
    PlaceInAlphabet(Digit(ALPHABET[d]));
  }

  /** The shortest digit string for `n`. */
  function MinimalDigits(n: nat): (s: string)
    ensures IsBase58(s) && Value58(s) == n && (s != "" ==> s[0] != '1')
  {
    if n == 0 then ""
    else
      var high := MinimalDigits(n / 58);
      var s := high + [ALPHABET[n % 58]];
      assert s[..|high|] == high;
      DigitOfAlphabet(n % 58);
      PlaceInAlphabet(n % 58);
      s
  }

  function Ones(k: nat): (s: string)
    ensures |s| == k && forall i | 0 <= i < k :: s[i] == '1'
  {
    seq(k, i => '1')
  }

  /** Base58 as it is usually encoded: a one for each leading zero byte, then the number. */
  function Encode(bs: seq<byte>): string {
    Ones(LeadingZeros(bs)) + MinimalDigits(Value256(bs))
  }

  lemma {:induction false} OnesAreZero(k: nat)
    ensures Value58(Ones(k)) == 0
  {
    if k > 0 {
      OnesAreZero(k - 1);
      assert Ones(k)[..k - 1] == Ones(k - 1);
      ZeroDigit('1');
    }
  }

  lemma {:induction false} OnesCountNothing(k: nat, s: string)
    ensures Value58(Ones(k) + s) == Value58(s)
  {
    if s == "" {
      OnesAreZero(k);
      assert Ones(k) + s == Ones(k);
    } else {
      hide Digit;
      assert (Ones(k) + s)[..k + |s| - 1] == Ones(k) + s[..|s| - 1];
      OnesCountNothing(k, s[..|s| - 1]);
    }
  }

  lemma NoColon()
    ensures Digit(':') == 58
  {
    if Digit(':') < 58 {
      PlaceInAlphabet(Digit(':'));
    }
  }

  lemma EncodedText(bs: seq<byte>)
    ensures var s := Encode(bs); IsBase58(s) && Value58(s) == Value256(bs) && LeadingOnes(s) == LeadingZeros(bs) && Strip(s) == s
  {
    hide Digit;
    var k, d := LeadingZeros(bs), MinimalDigits(Value256(bs));
    var s := Encode(bs);
    OnesCountNothing(k, d);
    ZeroDigit('1');
    assert IsBase58(s);
    LeadingOnesAre(s, k);
    if PREFIX <= s {
      assert s[7] == PREFIX[7] == ':';
      NoColon();
    }
  }

  lemma {:induction false} AllZero(bs: seq<byte>)
    requires Value256(bs) == 0
    ensures bs == Zeros(|bs|)
  {
    if bs != [] {
      AllZero(bs[..|bs| - 1]);
      assert bs == bs[..|bs| - 1] + [0];
    }
  }

  /** A byte string is its leading zeros followed by the shortest string for its number. */
  lemma {:induction false} BytesAreDetermined(bs: seq<byte>)
    ensures bs == Zeros(LeadingZeros(bs)) + MinimalBytes(Value256(bs))
    decreases |bs|
  {
    if Value256(bs) == 0 {
      AllZero(bs);
      LeadingZerosAre(bs, |bs|);
    } else {
      var n := |bs| - 1;
      var high := bs[..n];
      BytesAreDetermined(high);
      assert bs == high + [bs[n]];
      assert Value256(bs) / 256 == Value256(high) && Value256(bs) % 256 == bs[n];
      LeadingZerosAre(bs, LeadingZeros(high));
    }
  }

  /** Decoding undoes encoding exactly for the byte strings with some nonzero byte, and so never for the others. */
  lemma DecodeUndoesEncode(bs: seq<byte>)
    ensures Decode(Encode(bs)).Some?
    ensures Decode(Encode(bs)).value == bs <==> exists i :: 0 <= i < |bs| && bs[i] != 0
    ensures (forall i | 0 <= i < |bs| :: bs[i] == 0) ==> Decode(Encode(bs)).value == bs + [0]
  {
    EncodedText(bs);
    BytesAreDetermined(bs);
    var k, n := LeadingZeros(bs), Value256(bs);
    if n == 0 {
      assert MinimalBytes(n) == [] && bs == Zeros(k);
      assert Zeros(k + 1) + [] == bs + [0];
    } else {
      assert MinimalBytes(n) != [];
      assert bs[k] != 0;
      assert Decode(Encode(bs)).value == Zeros(k + 0) + MinimalBytes(n);
    }
  }

  lemma {:induction false} OnlyOnes(s: string)
    requires IsBase58(s) && Value58(s) == 0
    ensures s == Ones(|s|)
  {
    ZeroMeansOnes(s);
  }

  /** The leading ones of all but the last digit are those of the whole, unless the whole is all ones. */
  lemma LastOne(s: string)
    requires s != "" && IsBase58(s) && Value58(s) != 0
    ensures var k := LeadingOnes(s[..|s| - 1]);
            k <= |s| && (forall i | 0 <= i < k :: s[i] == '1') && (k < |s| ==> s[k] != '1')
  {
    hide Digit, Value58, LeadingOnes;
    var high := s[..|s| - 1];
    var k := LeadingOnes(high);
    forall i | 0 <= i < k
      ensures s[i] == '1'
    {
      assert high[i] == '1';
    }
    if k < |s| - 1 {
      assert high[k] == s[k];
    } else if s[k] == '1' {
      ZeroMeansOnes(s);
      assert false;
    }
  }

  lemma IsDigitOf(c: char)
    requires Digit(c) < 58
    ensures ALPHABET[Digit(c)] == c
  {
  }

  /** A text is its leading ones followed by the shortest text for its number. */
  lemma {:induction false} TextIsDetermined(s: string)
    requires IsBase58(s)
    ensures s == Ones(LeadingOnes(s)) + MinimalDigits(Value58(s))
    decreases |s|
  {
    hide Digit;
    if Value58(s) == 0 {
      OnlyOnes(s);
      LeadingOnesAre(s, |s|);
    } else {
      var n := |s| - 1;
      var high := s[..n];
      TextIsDetermined(high);
      assert s == high + [s[n]];
      IsDigitOf(s[n]);
      assert Value58(s) / 58 == Value58(high) && Value58(s) % 58 == Digit(s[n]);
      LeadingOnesAre(s, LeadingOnes(high)) by { LastOne(s); }
    }
  }

  /** No two texts decode to the same bytes, apart from the optional key prefix. */
  lemma DecodeIsInjective(a: string, b: string)
    requires Decode(a).Some? && Decode(a) == Decode(b)
    ensures Strip(a) == Strip(b)
  {
    hide Digit;
    DecodeKeepsTheNumber(a);
    DecodeKeepsTheNumber(b);
    ZeroMeansOnes(Strip(a));
    ZeroMeansOnes(Strip(b));
    TextIsDetermined(Strip(a));
    TextIsDetermined(Strip(b));
  }
}
