/** Canonical base64 (sections 3.5 and 4 of RFC 4648), as the client checks it: decode, encode again, compare. */
module Base64 {
  import opened Common

  function CharOf(v: nat): char
    requires v < 64
  {
    if v < 26 then 'A' + v as char
    else if v < 52 then 'a' + (v - 26) as char
    else if v < 62 then '0' + (v - 52) as char
    else if v == 62 then '+' else '/'
  }

  function ValueOf(c: char): (v: Option<nat>)
    ensures v.Some? ==> v.value < 64
  {
    if 'A' <= c <= 'Z' then Some((c - 'A') as nat)
    else if 'a' <= c <= 'z' then Some((c - 'a') as nat + 26)
    else if '0' <= c <= '9' then Some((c - '0') as nat + 52)
    else if c == '+' then Some(62)
    else if c == '/' then Some(63)
    else None
  }

  lemma CharsAreValues(v: nat)
    requires v < 64
    ensures ValueOf(CharOf(v)) == Some(v) && CharOf(v) != '='
  {
  }

  // Three bytes are cut into four six-bit values.

  function First(a: byte): (v: nat)
    ensures v < 64
  {
    a / 4
  }

  function Second(a: byte, b: byte): (v: nat)
    ensures v < 64
  {
    a % 4 * 16 + b / 16
  }

  function Third(b: byte, c: byte): (v: nat)
    ensures v < 64
  {
    b % 16 * 4 + c / 64
  }

  function Fourth(c: byte): (v: nat)
    ensures v < 64
  {
    c % 64
  }

  /** `btoa` */
  function Encode(bs: seq<byte>): string {
    if bs == [] then ""
    else if |bs| == 1 then [CharOf(First(bs[0])), CharOf(Second(bs[0], 0)), '=', '=']
    else if |bs| == 2 then [CharOf(First(bs[0])), CharOf(Second(bs[0], bs[1])), CharOf(Third(bs[1], 0)), '=']
    else
      [CharOf(First(bs[0])), CharOf(Second(bs[0], bs[1])), CharOf(Third(bs[1], bs[2])), CharOf(Fourth(bs[2]))] + Encode(bs[3..])
  }

  predicate AllValues(s: string) {
    forall i | 0 <= i < |s| :: ValueOf(s[i]).Some?
  }

  /** The bytes of a text without padding; bits that do not fill a byte are dropped. */
  function DecodeGroups(s: string): Option<seq<byte>>
    requires AllValues(s)
  {
    if s == "" then Some([])
    else if |s| == 1 then None
    else
      var a, b := ValueOf(s[0]).value, ValueOf(s[1]).value;
      if |s| == 2 then Some([a * 4 + b / 16])
      else
        var c := ValueOf(s[2]).value;
        if |s| == 3 then Some([a * 4 + b / 16, b % 16 * 16 + c / 4])
        else
          var rest := DecodeGroups(s[4..]);
          if rest.None? then None
          else Some([a * 4 + b / 16, b % 16 * 16 + c / 4, c % 4 * 64 + ValueOf(s[3]).value] + rest.value)
  }

  /** Up to `k` padding characters off the end. */
  function Unpadded(s: string, k: nat): string {
    if k == 0 || s == "" || s[|s| - 1] != '=' then s else Unpadded(s[..|s| - 1], k - 1)
  }

  /** `atob`, for texts without white space: padding may be there in full or not at all. */
  function Atob(s: string): Option<seq<byte>> {
    var t := if |s| % 4 == 0 then Unpadded(s, 2) else s;
    if !AllValues(t) then None else DecodeGroups(t)
  }

  /** The pattern of the client: at least one character of the alphabet, then at most two of padding. */
  predicate LooksRight(s: string) {
    var t := Unpadded(s, 2);
    t != "" && AllValues(t)
  }

  const MAX_TEXT: nat := 800

  /** `unbase64` */
  function Unbase64(s: string): Option<seq<byte>> {
    if |s| > MAX_TEXT || !LooksRight(s) then None
    else
      var bs := Atob(s);
      if bs.None? || Encode(bs.value) != s then None else bs
  }

  /** The encoding without its padding. */
  function Bare(bs: seq<byte>): string {
    if bs == [] then ""
    else if |bs| == 1 then [CharOf(First(bs[0])), CharOf(Second(bs[0], 0))]
    else if |bs| == 2 then [CharOf(First(bs[0])), CharOf(Second(bs[0], bs[1])), CharOf(Third(bs[1], 0))]
    else
      [CharOf(First(bs[0])), CharOf(Second(bs[0], bs[1])), CharOf(Third(bs[1], bs[2])), CharOf(Fourth(bs[2]))] + Bare(bs[3..])
  }

  function Padding(n: nat): string {
    if n % 3 == 1 then "==" else if n % 3 == 2 then "=" else ""
  }

  lemma {:induction false} EncodeIsPadded(bs: seq<byte>)
    ensures Encode(bs) == Bare(bs) + Padding(|bs|)
  {
    hide CharOf, First, Second, Third, Fourth;
    if |bs| >= 3 {
      EncodeIsPadded(bs[3..]);
      assert Padding(|bs|) == Padding(|bs[3..]|);
    }
  }

  /** The four values hold all the bits of the three bytes. */
  lemma BitsAreKept(a: byte, b: byte, c: byte)
    ensures First(a) * 4 + Second(a, b) / 16 == a
    ensures Second(a, b) % 16 * 16 + Third(b, c) / 4 == b
    ensures Third(b, c) % 4 * 64 + Fourth(c) == c
  {
  }

  lemma GroupDecodes(bs: seq<byte>)
    requires |bs| >= 3 && AllValues(Bare(bs[3..])) && DecodeGroups(Bare(bs[3..])) == Some(bs[3..])
    ensures AllValues(Bare(bs)) && DecodeGroups(Bare(bs)) == Some(bs) && |Bare(bs)| >= 4
  {
    hide CharOf, ValueOf, First, Second, Third, Fourth;
    CharsAreValues(First(bs[0]));
    CharsAreValues(Second(bs[0], bs[1]));
    CharsAreValues(Third(bs[1], bs[2]));
    CharsAreValues(Fourth(bs[2]));
    BitsAreKept(bs[0], bs[1], bs[2]);
    assert Bare(bs)[4..] == Bare(bs[3..]);
    assert bs == [bs[0], bs[1], bs[2]] + bs[3..];
  }

  lemma LastGroupDecodes(bs: seq<byte>)
    requires 1 <= |bs| <= 2
    ensures AllValues(Bare(bs)) && DecodeGroups(Bare(bs)) == Some(bs) && |Bare(bs)| >= 2
  {
    hide CharOf, ValueOf, First, Second, Third, Fourth;
    var a, b := bs[0], if |bs| > 1 then bs[1] else 0;
    CharsAreValues(First(a));
    CharsAreValues(Second(a, b));
    CharsAreValues(Third(b, 0));
    BitsAreKept(a, b, 0);
    assert bs == if |bs| == 1 then [a] else [a, b];
  }

  lemma {:induction false} BareDecodes(bs: seq<byte>)
    ensures AllValues(Bare(bs)) && (bs != [] ==> |Bare(bs)| >= 2)
    ensures DecodeGroups(Bare(bs)) == Some(bs)
  {
    if |bs| >= 3 {
      BareDecodes(bs[3..]);
      GroupDecodes(bs);
    } else if bs != [] {
      LastGroupDecodes(bs);
    }
  }

  lemma StripPadding(t: string, padding: string)
    requires AllValues(t) && padding in {"", "=", "=="}
    ensures Unpadded(t + padding, 2) == t
  {
    assert ValueOf('=').None?;
    assert t != "" ==> ValueOf(t[|t| - 1]).Some?;
    if padding == "" {
      assert t + padding == t;
    } else if padding == "=" {
      assert (t + "=")[..|t|] == t;
    } else {
      assert (t + "==")[..|t| + 1] == t + "=" && (t + "=")[..|t|] == t;
      assert Unpadded(t + "=", 1) == Unpadded(t, 0) == t;
    }
  }

  lemma UnpaddedIsBare(bs: seq<byte>)
    ensures Unpadded(Encode(bs), 2) == Bare(bs)
  {
    hide Encode, Bare, DecodeGroups;
    EncodeIsPadded(bs);
    BareDecodes(bs);
    var t := Bare(bs);
    StripPadding(t, Padding(|bs|));
  }

  /** The number of groups of three bytes, the last one perhaps incomplete. */
  function Groups(n: nat): (k: nat)
    ensures n <= 3 * k <= n + 2
  {
    if n <= 3 then (if n == 0 then 0 else 1) else 1 + Groups(n - 3)
  }

  lemma {:induction false} EncodedLength(bs: seq<byte>)
    ensures |Encode(bs)| == 4 * Groups(|bs|)
  {
    hide CharOf, First, Second, Third, Fourth;
    if |bs| >= 3 {
      EncodedLength(bs[3..]);
    }
  }

  lemma EncodedNothing(bs: seq<byte>)
    ensures bs == [] <==> Encode(bs) == ""
  {
  }

  lemma NotEmpty(s: string)
    requires LooksRight(s)
    ensures s != ""
  {
  }

  lemma AcceptedIsEncoding(s: string, bs: seq<byte>)
    requires Unbase64(s) == Some(bs)
    ensures s == Encode(bs) && 1 <= |bs| <= 600
  {
    hide Encode, Unpadded, AllValues, Atob, Groups;
    EncodedLength(bs);
    NotEmpty(s);
    EncodedNothing(bs);
  }

  lemma EncodingsAreAccepted(bs: seq<byte>)
    requires 1 <= |bs| <= 600
    ensures Unbase64(Encode(bs)) == Some(bs)
  {
    hide Encode, Bare, DecodeGroups, Unpadded, AllValues, Groups;
    EncodedLength(bs);
    UnpaddedIsBare(bs);
    BareDecodes(bs);
    assert |Encode(bs)| <= 800;
    assert LooksRight(Encode(bs));
    assert Atob(Encode(bs)) == Some(bs);
  }

  /** The accepted texts are exactly the encodings of 1 to 600 bytes, each for its own bytes. */
  lemma AcceptsExactlyEncodings(s: string, bs: seq<byte>)
    ensures Unbase64(s) == Some(bs) <==> s == Encode(bs) && 1 <= |bs| <= 600
  {
    if 1 <= |bs| <= 600 {
      EncodingsAreAccepted(bs);
    }
    if Unbase64(s) == Some(bs) {
      AcceptedIsEncoding(s, bs);
    }
  }
}
